/** Two users of the same rating, one of whom sits in a room alone: short runs of the server that start with
    nobody there. In two of them a game is rated that its loser or its winner has not played; in two more the
    background loop stops short. */
module LoneSeat {
  import opened Basics
  import opened Play
  import opened Rooms
  import opened GameServer
  import opened ServerLaws
  import opened Grace
  import opened Matchmaking
  import Adapter
  import BackgroundLoop
  import Forfeits
  import KingsFall
  import Ledger
  import Scores
  import Vanishing

  const USERS := map["a" := 1200, "b" := 1200]

  const ENTERS := CreateEvent("a", "r")

  /** "a" sits in room "r" alone, and "b" is in no room. */
  ghost predicate Alone(s: Server, opening: Game) {
    && Fair(s, opening) && Booked(s) && s.ratings.Keys == USERS.Keys
    && "r" in s.engines && s.lobby.rooms["r"].joined == ["a"] && "b" !in s.lobby.userRoom
  }

  lemma Entered(cfg: Setting)
    requires Sound(cfg.opening) && !cfg.opening.over
    ensures var s := GameServer.Run(USERS, [ENTERS], cfg);
            && AllAllowed(USERS, [ENTERS], cfg) && Alone(s, cfg.opening)
            && s.engines == map["r" := cfg.opening] && s.lobby.rooms.Keys == {"r"}
            && s.lobby.userRoom == map["a" := "r"]
            && "a" in s.lobby.rooms["r"].members && s.lobby.rooms["r"].members["a"] == Member(WhiteSeat, true, None)
  {
    hide Fair, Booked;
    NothingYet(cfg);
    OneMoreEvent(USERS, [], ENTERS, cfg);
    assert [] + [ENTERS] == [ENTERS];
    RunKeeps(USERS, [ENTERS], cfg);
  }

  lemma NothingYet(cfg: Setting)
    requires Sound(cfg.opening)
    ensures AllAllowed(USERS, [], cfg) && GameServer.Run(USERS, [], cfg) == Fresh(USERS)
  {
  }

  /** One game between the two, won by c: 16 points change hands. */
  lemma PointsOf(es: seq<GameServer.Event>, cfg: Setting, c: Color)
    requires Sound(cfg.opening) && !cfg.opening.over && AllAllowed(USERS, es, cfg) && cfg.odds(1200, 1200) == 0.5
    requires Forfeits.RatedFor(GameServer.Run(USERS, es, cfg), "r", "a", "b", c)
    ensures var n := GameServer.Run(USERS, es, cfg);
            && n.ratings.Keys == USERS.Keys
            && n.ratings["a"] == (if c.White? then 1216 else 1184)
            && n.ratings["b"] == (if c.White? then 1184 else 1216)
  {
    hide GameServer.Run, AllAllowed;
    Ledger.RunBalances(USERS, es, cfg);
    var n := GameServer.Run(USERS, es, cfg);
    var h :| h in n.history && h.room == "r" && h.white == "a" && h.black == "b" && h.winner == c;
    var i :| 0 <= i < |n.history| && n.history[i] == h;
    assert Ledger.EntryOk(n, n.history[i], USERS, cfg.odds);
  }

  /** From where the game is over while "a" is alone: "b" joins, the clock ticks, and "b" is rated. */
  lemma Joins(es: seq<GameServer.Event>, cfg: Setting, c: Color)
    requires Sound(cfg.opening) && !cfg.opening.over && AllAllowed(USERS, es, cfg)
    requires Alone(GameServer.Run(USERS, es, cfg), cfg.opening)
    requires var g := GameServer.Run(USERS, es, cfg).engines["r"]; g.over && g.winner == Some(c)
    ensures var all := es + [JoinEvent("b", "r"), TickAll];
            AllAllowed(USERS, all, cfg) && Forfeits.RatedFor(GameServer.Run(USERS, all, cfg), "r", "a", "b", c)
  {
    hide GameServer.Run, AllAllowed, GameServer.Next, Fair, Booked, Forfeits.RatedFor;
    OneMoreEvent(USERS, es, JoinEvent("b", "r"), cfg);
    OneMoreEvent(USERS, es + [JoinEvent("b", "r")], TickAll, cfg);
    assert es + [JoinEvent("b", "r")] + [TickAll] == es + [JoinEvent("b", "r"), TickAll];
    Forfeits.RatedIffOverBefore(GameServer.Run(USERS, es, cfg), cfg, "r", "a", "b");
  }

  // ---- given up alone ----

  /** "a" opens a room and loses the connection: a scan within 20 seconds leaves the game as it is, and the first
      scan after them ends it. */
  lemma GivenUp(cfg: Setting, now: real)
    requires Sound(cfg.opening) && !cfg.opening.over
    ensures var es := [ENTERS, Drop("a", 0.0), GameServer.Grace(now)];
            var s := GameServer.Run(USERS, es, cfg);
            && AllAllowed(USERS, es, cfg) && Alone(s, cfg.opening)
            && (now < 20.0 ==> s.engines["r"] == cfg.opening)
            && (now >= 20.0 ==> s.engines["r"].over && s.engines["r"].winner == Some(Black))
  {
    hide GameServer.Run, AllAllowed, GameServer.Next, Fair, Booked, SamePeople, SeatLapsed, Forfeit;
    Entered(cfg);
    var s := GameServer.Run(USERS, [ENTERS], cfg);
    OneMoreEvent(USERS, [ENTERS], Drop("a", 0.0), cfg);
    assert [ENTERS] + [Drop("a", 0.0)] == [ENTERS, Drop("a", 0.0)];
    GoesAway(s, cfg);
    var t := GameServer.Next(s, Drop("a", 0.0), cfg);
    NextKeeps(s, Drop("a", 0.0), cfg);
    OneMoreEvent(USERS, [ENTERS, Drop("a", 0.0)], GameServer.Grace(now), cfg);
    assert [ENTERS, Drop("a", 0.0)] + [GameServer.Grace(now)] == [ENTERS, Drop("a", 0.0), GameServer.Grace(now)];
    GraceEffect(t, now, cfg, "r");
    NextKeeps(t, GameServer.Grace(now), cfg);
    StillAlone(t, GameServer.Next(t, GameServer.Grace(now), cfg), cfg.opening);
    if now >= 20.0 { Forfeits.LoneWhiteGivesUp(t, cfg, "r", now); }
  }

  lemma GoesAway(s: Server, cfg: Setting)
    requires Alone(s, cfg.opening) && Sound(cfg.opening) && s.lobby.userRoom == map["a" := "r"]
    requires s.engines == map["r" := cfg.opening] && s.lobby.rooms.Keys == {"r"}
    requires "a" in s.lobby.rooms["r"].members && s.lobby.rooms["r"].members["a"] == Member(WhiteSeat, true, None)
    ensures var t := GameServer.Next(s, Drop("a", 0.0), cfg);
            && t.engines == s.engines && t.ratings == s.ratings && "b" !in t.lobby.userRoom
            && "r" in t.lobby.rooms && t.lobby.rooms["r"].joined == ["a"]
            && forall now ::
                 (SeatLapsed(t.lobby.rooms["r"], 0, now) <==> 20.0 <= now) && !SeatLapsed(t.lobby.rooms["r"], 1, now)
  {
    hide Fair, Booked;
  }

  lemma StillAlone(s: Server, n: Server, opening: Game)
    requires Alone(s, opening) && Fair(n, opening) && Booked(n) && SamePeople(s.lobby, n.lobby)
    requires n.ratings.Keys == s.ratings.Keys && "r" in n.engines
    ensures Alone(n, opening)
  {
    hide LobbyOk, Live, Booked, Lists;
    FairLobby(s, opening);
    FairLobby(n, opening);
    Forfeits.FreeStays(s.lobby, n.lobby, "b");
  }

  /** "a" opens a room, loses the connection and is away for 20 seconds; "b" joins the finished game and has
      won 16 points at the next tick. */
  lemma JoinerWins(cfg: Setting)
    requires Sound(cfg.opening) && !cfg.opening.over && cfg.odds(1200, 1200) == 0.5
    ensures var es := [ENTERS, Drop("a", 0.0), GameServer.Grace(20.0), JoinEvent("b", "r"), TickAll];
            && AllAllowed(USERS, es, cfg)
            && GameServer.Run(USERS, es, cfg).ratings == map["a" := 1184, "b" := 1216]
  {
    hide GameServer.Run, AllAllowed, Alone, Forfeits.RatedFor;
    var es := [ENTERS, Drop("a", 0.0), GameServer.Grace(20.0)];
    GivenUp(cfg, 20.0);
    Joins(es, cfg, Black);
    assert es + [JoinEvent("b", "r"), TickAll]
        == [ENTERS, Drop("a", 0.0), GameServer.Grace(20.0), JoinEvent("b", "r"), TickAll];
    PointsOf(es + [JoinEvent("b", "r"), TickAll], cfg, Black);
  }

  // ---- won alone ----

  const TAKES_KING := Submit("a", KingsFall.WHITE_ROOK, KingsFall.BLACK_KING)

  /** The game of "a" after his rook has taken off, with so many milliseconds left to fly. */
  function RookAloft(left: int): (g: Game)
    ensures Sound(g)
  {
    KingsFall.Aloft([KingsFall.WhiteFlight(left)])
  }

  lemma RookTakesOff()
    requires Sound(KingsFall.OPENING)
    ensures Adapter.PlayerReply(KingsFall.OPENING, White, KingsFall.WHITE_ROOK, KingsFall.BLACK_KING).Accepted?
    ensures Adapter.PlayerMove(KingsFall.OPENING, White, KingsFall.WHITE_ROOK, KingsFall.BLACK_KING) == RookAloft(1000)
  {
    KingsFall.WhiteTakesOff();
    assert Adapter.ChebyshevDurationMs(KingsFall.WHITE_ROOK, KingsFall.BLACK_KING) == 1000;
  }

  lemma RookFlies(left: int)
    requires left > TICK_MS
    ensures Tick(RookAloft(left), TICK_MS) == RookAloft(left - TICK_MS)
  {
    hide Completed, StillMoving, LandAll, Landings;
    Vanishing.NotDue(KingsFall.WhiteFlight(left), TICK_MS);
    Vanishing.NobodyLands(RookAloft(left), TICK_MS);
  }

  lemma RookMeetsKing()
    ensures KingsFall.KingTakenBy(RookAloft(TICK_MS).(active := []), KingsFall.WhiteFlight(0), White)
  {
  }

  lemma RookTakesKing()
    ensures var g := Tick(RookAloft(TICK_MS), TICK_MS); g.over && g.winner == Some(White)
  {
    hide Completed, StillMoving, Land, LandAll, Landings, OutcomeOf, Scores.KingTaker;
    var g, m := RookAloft(TICK_MS).(active := []), KingsFall.WhiteFlight(0);
    Vanishing.OneDue(KingsFall.WhiteFlight(TICK_MS), TICK_MS);
    Vanishing.OneLands(RookAloft(TICK_MS), TICK_MS, m);
    RookMeetsKing();
    Scores.LandDecides(g, m);
  }

  function Ticks(n: nat): (es: seq<GameServer.Event>)
    ensures |es| == n && forall k | 0 <= k < n :: es[k] == TickAll
  {
    seq(n, k => TickAll)
  }

  lemma RookSent(cfg: Setting)
    requires Sound(KingsFall.OPENING) && cfg.opening == KingsFall.OPENING
    ensures var s := GameServer.Run(USERS, [ENTERS, TAKES_KING], cfg);
            && AllAllowed(USERS, [ENTERS, TAKES_KING], cfg) && Alone(s, cfg.opening)
            && s.engines == map["r" := RookAloft(1000)] && s.lobby.rooms.Keys == {"r"}
            && s.lobby.userRoom == map["a" := "r"]
  {
    hide GameServer.Run, AllAllowed, Fair, Booked, Adapter.PlayerReply, Adapter.PlayerMove;
    Entered(cfg);
    OneMoreEvent(USERS, [ENTERS], TAKES_KING, cfg);
    assert [ENTERS] + [TAKES_KING] == [ENTERS, TAKES_KING];
    RookTakesOff();
    RunKeeps(USERS, [ENTERS, TAKES_KING], cfg);
  }

  lemma {:induction false} RookOnItsWay(cfg: Setting, k: nat)
    requires Sound(KingsFall.OPENING) && cfg.opening == KingsFall.OPENING && k < 20
    ensures var es := [ENTERS, TAKES_KING] + Ticks(k);
            var s := GameServer.Run(USERS, es, cfg);
            AllAllowed(USERS, es, cfg) && Alone(s, cfg.opening) && s.engines["r"] == RookAloft(1000 - TICK_MS * k)
  {
    hide GameServer.Run, AllAllowed, Alone, RookAloft, Tick, Ticks;
    TicksStep(k);
    if k == 0 {
      RookSent(cfg);
    } else {
      RookOnItsWay(cfg, k - 1);
      RookFlies(1000 - TICK_MS * (k - 1));
      OneTick([ENTERS, TAKES_KING] + Ticks(k - 1), cfg);
    }
  }

  lemma TicksStep(n: nat)
    ensures [ENTERS, TAKES_KING] + Ticks(0) == [ENTERS, TAKES_KING]
    ensures n > 0 ==> [ENTERS, TAKES_KING] + Ticks(n) == [ENTERS, TAKES_KING] + Ticks(n - 1) + [TickAll]
  {
  }

  lemma OneTick(es: seq<GameServer.Event>, cfg: Setting)
    requires Sound(cfg.opening) && !cfg.opening.over && AllAllowed(USERS, es, cfg)
    requires Alone(GameServer.Run(USERS, es, cfg), cfg.opening)
    ensures var s, n := GameServer.Run(USERS, es, cfg), GameServer.Run(USERS, es + [TickAll], cfg);
            && AllAllowed(USERS, es + [TickAll], cfg) && Alone(n, cfg.opening)
            && n.engines["r"] == Tick(s.engines["r"], TICK_MS)
  {
    hide GameServer.Run, AllAllowed, GameServer.Next, Live, LobbyOk, Lists, Booked, Tick, Contested, SamePeople;
    var s := GameServer.Run(USERS, es, cfg);
    OneMoreEvent(USERS, es, TickAll, cfg);
    TickAllEffect(s, cfg);
    NextKeeps(s, TickAll, cfg);
    StillAlone(s, GameServer.Next(s, TickAll, cfg), cfg.opening);
  }

  lemma RookLanded(cfg: Setting)
    requires Sound(KingsFall.OPENING) && cfg.opening == KingsFall.OPENING
    ensures var es := [ENTERS, TAKES_KING] + Ticks(20);
            var s := GameServer.Run(USERS, es, cfg);
            && AllAllowed(USERS, es, cfg) && Alone(s, cfg.opening)
            && s.engines["r"].over && s.engines["r"].winner == Some(White)
  {
    hide GameServer.Run, AllAllowed, Alone, Tick;
    RookOnItsWay(cfg, 19);
    OneTick([ENTERS, TAKES_KING] + Ticks(19), cfg);
    assert [ENTERS, TAKES_KING] + Ticks(20) == [ENTERS, TAKES_KING] + Ticks(19) + [TickAll];
    RookTakesKing();
  }

  /** "a" opens a room and takes the black king before anybody sits opposite; "b" joins the finished game and
      has lost 16 points at the next tick. */
  lemma JoinerLoses(cfg: Setting)
    requires cfg.opening == KingsFall.OPENING && cfg.odds(1200, 1200) == 0.5
    ensures Sound(cfg.opening)
    ensures var es := [ENTERS, TAKES_KING] + Ticks(20) + [JoinEvent("b", "r"), TickAll];
            && AllAllowed(USERS, es, cfg)
            && GameServer.Run(USERS, es, cfg).ratings == map["a" := 1216, "b" := 1184]
  {
    hide GameServer.Run, AllAllowed, Alone, Forfeits.RatedFor, Tick, Ticks;
    KingsFall.OpeningIsInitial();
    RookLanded(cfg);
    Joins([ENTERS, TAKES_KING] + Ticks(20), cfg, White);
    PointsOf([ENTERS, TAKES_KING] + Ticks(20) + [JoinEvent("b", "r"), TickAll], cfg, White);
  }

  // ---- seated and queued ----

  function Entry(u: UserId, elo: int): QueueEntry {
    QueueEntry(u, elo, 0.0)
  }

  lemma OnePair(p: QueueEntry, q: QueueEntry)
    requires Compatible(p, q)
    ensures Pairs([p, q]) == [Pair(p, q)]
  {
    assert [p, q][1..] == [q];
    assert Matchmaking.Without([q], 0) == [];
  }

  /** "a" sits in room "r", with a rook in the air, and is in the queue with "b": the pair is refused, and the
      turn ends with the rook where it was. */
  lemma StalledTurn(cfg: Setting, now: real)
    requires Sound(KingsFall.OPENING) && cfg.opening == KingsFall.OPENING
    ensures var s := GameServer.Run(USERS, [ENTERS, TAKES_KING], cfg);
            var q, ids := [Entry("a", 1200), Entry("b", 1200)], ["x", "y"];
            && AllAllowed(USERS, [ENTERS, TAKES_KING], cfg) && BackgroundLoop.NewNames(s.lobby, ids)
            && |Pairs(q)| == 1 && BackgroundLoop.StopsAfter(s, Pairs(q), ids, cfg.opening, 0)
            && BackgroundLoop.Turn(s, Pairs(q), ids, 0, now, cfg) == s
            && "r" in s.engines && s.engines["r"] == RookAloft(1000) != Tick(s.engines["r"], TICK_MS)
  {
    hide GameServer.Run, AllAllowed, Alone, Tick, Pairs;
    RookSent(cfg);
    RookFlies(1000);
    OnePair(Entry("a", 1200), Entry("b", 1200));
    var s := GameServer.Run(USERS, [ENTERS, TAKES_KING], cfg);
    var ps := Pairs([Entry("a", 1200), Entry("b", 1200)]);
    assert ps[..0] == [];
    BackgroundLoop.NoneSeated(s, ["x", "y"], cfg.opening);
  }

  const X1 := Entry("x1", 1200)
  const X2 := Entry("x2", 1200)
  const Y1 := Entry("y1", 2000)
  const Y2 := Entry("y2", 2000)

  lemma FourPaired()
    ensures Pairs([X1, X2, Y1, Y2]) == [Pair(X1, X2), Pair(Y1, Y2)] && Pairs([X1, X2, Y2]) == [Pair(X1, X2)]
  {
    hide Pairs;
    OnePair(Y1, Y2);
    PairInFront(X1, X2, [Y1, Y2]);
    PairInFront(X1, X2, [Y2]);
    assert [X1, X2, Y1, Y2] == [X1, X2] + [Y1, Y2] && [X1, X2, Y2] == [X1, X2] + [Y2];
    NotPaired(Y2);
  }

  /** The first two fit. */
  lemma PairInFront(p: QueueEntry, q: QueueEntry, rest: seq<QueueEntry>)
    requires Compatible(p, q)
    ensures Pairs([p, q] + rest) == [Pair(p, q)] + Pairs(rest)
  {
    hide Compatible;
    assert ([p, q] + rest)[1..] == [q] + rest && ([q] + rest)[0] == q;
    assert Matchmaking.Without([q] + rest, 0) == rest;
  }

  lemma NotPaired(p: QueueEntry)
    ensures Pairs([p]) == []
  {
    assert [p][1..] == [];
  }

  lemma ThreeLeft()
    ensures Unused([X1, X2, Y1, Y2], {"y1"}) == [X1, X2, Y2]
  {
    assert "y1"[1] != "y2"[1] && "y1"[0] != "x1"[0] && "y1"[0] != "x2"[0];
    var him := {"y1"};
    OneUnused(Y2, [], him);
    OneUnused(Y1, [Y2], him);
    OneUnused(X2, [Y1, Y2], him);
    OneUnused(X1, [X2, Y1, Y2], him);
  }

  lemma OneUnused(e: QueueEntry, q: seq<QueueEntry>, used: set<UserId>)
    ensures Unused([e] + q, used) == (if e.userId in used then [] else [e]) + Unused(q, used)
    ensures Unused([], used) == []
  {
    assert ([e] + q)[1..] == q;
  }

  lemma ByHand(opening: Game, users: map<UserId, int>)
    requires Sound(opening)
    ensures var s := Create(Fresh(users), "y1", "r", opening);
            s.lobby.userRoom == map["y1" := "r"] && s.lobby.rooms.Keys == {"r"}
  {
  }

  /** The turn that seats the first pair. */
  lemma OnePairSeated(s: Server, opening: Game)
    requires Sane(s) && Sound(opening) && s.lobby.userRoom == map["y1" := "r"] && s.lobby.rooms.Keys == {"r"}
    ensures var ps, ids := [Pair(X1, X2), Pair(Y1, Y2)], ["x", "y"];
            && BackgroundLoop.StopsAfter(s, ps, ids, opening, 1)
            && var t := BackgroundLoop.SeatPairs(s, [Pair(X1, X2)], ids, opening);
               "x1" in t.lobby.userRoom && "y1" in t.lobby.userRoom
  {
    hide Match, BackgroundLoop.SeatPairs, BackgroundLoop.Seatable;
    var ps, ids := [Pair(X1, X2), Pair(Y1, Y2)], ["x", "y"];
    assert ps[..0] == [] && ps[..1] == [Pair(X1, X2)];
    BackgroundLoop.NoneSeated(s, ids, opening);
    BackgroundLoop.OneSeated(s, ps, ids, opening, 0);
    BackgroundLoop.MatchSeats(s, "x1", "x2", "x", opening);
    BackgroundLoop.SeatableIs(s, ps, ids, opening, 0);
    BackgroundLoop.SeatableIs(s, ps, ids, opening, 1);
    BackgroundLoop.StopsIs(s, ps, ids, opening, 1);
  }

  /** A pair with a seated user in front stops any turn at once. */
  lemma StopsAtOnce(t: Server, p: Pair, ids: seq<RoomId>, opening: Game)
    requires Sane(t) && Sound(opening) && |ids| >= 1 && p.white.userId in t.lobby.userRoom
    ensures BackgroundLoop.StopsAfter(t, [p], ids, opening, 0)
  {
    hide BackgroundLoop.SeatPairs, BackgroundLoop.Seatable;
    assert [p][..0] == [];
    BackgroundLoop.NoneSeated(t, ids, opening);
    BackgroundLoop.SeatableIs(t, [p], ids, opening, 0);
    BackgroundLoop.StopsIs(t, [p], ids, opening, 0);
  }

  /** "y1" sits in a room by hand and queues behind a pair of others. That pair gets its room, his own is
      refused, and everybody stays queued. When he has left the queue the turn after stops short all the same:
      now the first pair is refused, because its two users have got their room. */
  lemma StalledWithoutHim(opening: Game, users: map<UserId, int>, more: seq<RoomId>)
    requires Sound(opening) && |more| >= 1
    ensures var s := Create(Fresh(users), "y1", "r", opening);
            var q, ids := [X1, X2, Y1, Y2], ["x", "y"];
            && BackgroundLoop.NewNames(s.lobby, ids)
            && Pairs(q) == [Pair(X1, X2), Pair(Y1, Y2)] && BackgroundLoop.StopsAfter(s, Pairs(q), ids, opening, 1)
            && Pairs(Unused(q, {"y1"})) == [Pair(X1, X2)]
            && var t := BackgroundLoop.SeatPairs(s, [Pair(X1, X2)], ids, opening);
               BackgroundLoop.StopsAfter(t, Pairs(Unused(q, {"y1"})), more, opening, 0)
  {
    hide Pairs, Unused, Create, BackgroundLoop.SeatPairs, BackgroundLoop.StopsAfter, Sound, Sane;
    FourPaired();
    ThreeLeft();
    ByHand(opening, users);
    NobodyThere(users);
    var s := Create(Fresh(users), "y1", "r", opening);
    OnePairSeated(s, opening);
    StopsAtOnce(BackgroundLoop.SeatPairs(s, [Pair(X1, X2)], ["x", "y"], opening), Pair(X1, X2), more, opening);
  }

  lemma NobodyThere(users: map<UserId, int>)
    ensures Sane(Fresh(users))
  {
  }
}
