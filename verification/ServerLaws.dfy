/** What every run of the game server keeps: each game is a run of the engine, and each game is rated
    at most once, for the winner it really had. */
module ServerLaws {
  import opened Basics
  import opened Play
  import opened Rooms
  import opened GameServer
  import Adapter
  import Scores

  // ---- One game ----

  /** A game that some timely run of requests, ticks and forfeits leads to. */
  ghost predicate Reached(opening: Game, g: Game)
    requires Sound(opening)
  {
    exists es :: AllTimely(es) && Play.Run(opening, es) == g
  }

  ghost predicate Settled(g: Game) {
    g.over ==> g.winner.Some?
  }

  ghost predicate Live(opening: Game, g: Game) {
    Sound(opening) && Sound(g) && Reached(opening, g) && Settled(g)
  }

  lemma OpeningLives(opening: Game)
    requires Sound(opening) && !opening.over
    ensures Live(opening, opening)
  {
    assert AllTimely([]) && Play.Run(opening, []) == opening;
  }

  lemma NextSettled(g: Game, e: Play.Event)
    requires Sound(g) && Settled(g)
    ensures Settled(Play.Next(g, e))
    ensures g.over ==> Play.Next(g, e) == g
  {
    hide Land, LandAll, OutcomeOf, Landings, Scores.KingTaker, Scores.LastKingTaker;
    if e.Wait? && !g.over {
      Scores.LastCaptureWins(Airborne(g, e.ms), Landings(g.active, e.ms));
    }
  }

  lemma NextLives(opening: Game, g: Game, e: Play.Event)
    requires Live(opening, g) && Timely(e)
    ensures Live(opening, Play.Next(g, e))
    ensures g.over ==> Play.Next(g, e) == g
  {
    hide Play.Next, Timely, Play.Run;
    NextSettled(g, e);
    var es :| AllTimely(es) && Play.Run(opening, es) == g;
    Play.RunOneMore(opening, es, e);
    assert AllTimely(es + [e]);
  }

  lemma TickLives(opening: Game, g: Game)
    requires Live(opening, g)
    ensures Live(opening, Tick(g, TICK_MS))
    ensures g.over ==> Tick(g, TICK_MS) == g
  {
    hide Tick, Live;
    NextLives(opening, g, Wait(TICK_MS));
  }

  lemma ForfeitLives(opening: Game, g: Game, c: Color)
    requires Live(opening, g)
    ensures Live(opening, Forfeit(g, c))
    ensures g.over ==> Forfeit(g, c) == g
    ensures Forfeit(g, c).over && (!g.over ==> Forfeit(g, c).winner == Some(c))
  {
    NextLives(opening, g, Resign(c));
  }

  lemma MoveLives(opening: Game, g: Game, c: Color, a: Position, b: Position)
    requires Live(opening, g)
    ensures Live(opening, Adapter.PlayerMove(g, c, a, b))
    ensures g.over ==> Adapter.PlayerMove(g, c, a, b) == g
  {
    hide MoveRequest, Live, Adapter.PlayerReply, Adapter.ChebyshevDurationMs;
    LiveParts(opening, g);
    if Adapter.PlayerReply(g, c, a, b).Accepted? {
      Adapter.PlayerMovesAreTimely(g, c, a, b);
      NextLives(opening, g, Move(a, b, Adapter.ChebyshevDurationMs(a, b)));
    }
  }

  lemma LiveParts(opening: Game, g: Game)
    requires Live(opening, g)
    ensures Sound(opening) && Sound(g) && Settled(g) && Reached(opening, g)
  {
  }

  // ---- The invariant ----

  /** Every room has its game, and every game is a run of the engine. */
  ghost predicate Fair(s: Server, opening: Game) {
    && Sane(s) && LobbyOk(s.lobby)
    && s.engines.Keys == s.lobby.rooms.Keys && Lists(s.started, s.engines.Keys)
    && forall r | r in s.engines :: Live(opening, s.engines[r])
  }

  lemma FairLobby(s: Server, opening: Game)
    requires Fair(s, opening)
    ensures Sane(s) && LobbyOk(s.lobby)
  {
  }

  /** The record agrees with the room and with the game, which is over. */
  ghost predicate Recorded(s: Server, h: GameResult) {
    && EloUpdated(s.lobby, h.room) && Seated(s.lobby.rooms[h.room]) == [h.white, h.black]
    && h.room in s.engines && s.engines[h.room].over && s.engines[h.room].winner == Some(h.winner)
  }

  ghost predicate InHistory(s: Server, r: RoomId) {
    exists i :: 0 <= i < |s.history| && s.history[i].room == r
  }

  /** The rated rooms are exactly those in the history, each once and with its final result. */
  ghost predicate Booked(s: Server) {
    && (forall i | 0 <= i < |s.history| :: Recorded(s, s.history[i]))
    && (forall i, j | 0 <= i < j < |s.history| :: s.history[i].room != s.history[j].room)
    && (forall r | EloUpdated(s.lobby, r) :: InHistory(s, r))
  }

  /** A step that rates nobody and leaves finished games alone. */
  ghost predicate Forward(s: Server, n: Server) {
    && Onward(s.lobby, n.lobby) && n.history == s.history && n.ratings == s.ratings
    && forall r | r in s.engines ::
         r in n.engines && (s.engines[r].over ==> n.engines[r] == s.engines[r])
  }

  lemma ForwardKeepsBooked(s: Server, n: Server)
    requires Booked(s) && Forward(s, n)
    ensures Booked(n)
  {
    hide LobbyOk;
    forall i | 0 <= i < |n.history| ensures Recorded(n, n.history[i]) {
      var h := s.history[i];
      assert Recorded(s, h);
      SeatsFull(s.lobby.rooms[h.room], n.lobby.rooms[h.room]);
    }
    forall r | EloUpdated(n.lobby, r) ensures InHistory(n, r) {
      assert InHistory(s, r);
    }
  }

  lemma SeatsFull(a: Room, b: Room)
    requires Seated(a) <= Seated(b) && |Seated(a)| == 2
    ensures Seated(a) == Seated(b)
  {
  }

  // ---- Entering, leaving, moving ----

  lemma OpenKeeps(s: Server, l: Lobby, r: RoomId, opening: Game)
    requires Fair(s, opening) && Sound(opening) && !opening.over
    requires Onward(s.lobby, l) && r !in s.engines && l.rooms.Keys == s.lobby.rooms.Keys + {r}
    ensures var n := OpenEngine(s.(lobby := l), r, opening); Fair(n, opening) && Forward(s, n)
  {
    hide Live, LobbyOk, Seated;
    OpeningLives(opening);
  }

  lemma CreateKeepsFair(s: Server, u: UserId, id: RoomId, opening: Game)
    requires Fair(s, opening) && Sound(opening) && !opening.over && id !in s.lobby.rooms
    ensures Fair(Create(s, u, id, opening), opening) && Forward(s, Create(s, u, id, opening))
  {
    hide Live, Seated, Lists, RoomOk;
    CreateOnward(s.lobby, u, id);
    if Creatable(s.lobby, u).None? { OpenKeeps(s, CreateRoom(s.lobby, u, id), id, opening); }
  }

  lemma MatchKeepsFair(s: Server, a: UserId, b: UserId, id: RoomId, opening: Game)
    requires Fair(s, opening) && Sound(opening) && !opening.over && a != b
    ensures Fair(Match(s, a, b, id, opening), opening) && Forward(s, Match(s, a, b, id, opening))
  {
    hide Live, Seated, Lists, RoomOk;
    CreateMatchedOnward(s.lobby, a, b, id);
    if Matchable(s.lobby, a, b, id).None? { OpenKeeps(s, CreateMatchedRoom(s.lobby, a, b, id), id, opening); }
  }

  /** Joining never sets up a game: every room has had one from the start. */
  lemma JoinKeepsFair(s: Server, u: UserId, r: RoomId, opening: Game)
    requires Fair(s, opening) && Sound(opening)
    ensures Join(s, u, r, opening).engines == s.engines && Join(s, u, r, opening).started == s.started
    ensures Fair(Join(s, u, r, opening), opening) && Forward(s, Join(s, u, r, opening))
  {
    hide Live, Seated, Lists, Agree, Seats;
    JoinOnward(s.lobby, u, r);
    if Joinable(s.lobby, u, r).None? { assert RoomOk(s.lobby.rooms[r]); }
  }

  /** A room without a game gets one when somebody takes a seat in it, unless it was started before. */
  lemma JoinStarts(s: Server, u: UserId, r: RoomId, opening: Game)
    requires Sane(s) && Sound(opening) && Joinable(s.lobby, u, r).None? && r !in s.engines
    ensures var n, room := Join(s, u, r, opening), s.lobby.rooms[r];
            if room.gameStarted || |Players(room)| >= 2 then n.engines == s.engines && n.started == s.started
            else n.engines == s.engines[r := opening] && n.started == s.started + [r]
  {
    hide Players;
  }

  lemma LobbyKeepsFair(s: Server, l: Lobby, opening: Game)
    requires Fair(s, opening) && Onward(s.lobby, l) && l.rooms.Keys == s.lobby.rooms.Keys
    ensures Fair(s.(lobby := l), opening) && Forward(s, s.(lobby := l))
  {
  }

  lemma EngineKeepsFair(s: Server, r: RoomId, g: Game, opening: Game)
    requires Fair(s, opening) && r in s.engines && Live(opening, g) && (s.engines[r].over ==> g == s.engines[r])
    ensures Fair(s.(engines := s.engines[r := g]), opening) && Forward(s, s.(engines := s.engines[r := g]))
  {
    hide Live, LobbyOk, Seated;
    LiveParts(opening, g);
    assert s.engines[r := g].Keys == s.engines.Keys;
    OnwardSame(s.lobby);
  }

  lemma OnwardSame(l: Lobby)
    requires LobbyOk(l)
    ensures Onward(l, l)
  {
  }

  lemma SubmitKeepsFair(s: Server, u: UserId, a: Position, b: Position, opening: Game)
    requires Fair(s, opening)
    ensures Fair(SubmitMove(s, u, a, b), opening) && Forward(s, SubmitMove(s, u, a, b))
  {
    hide Live, LobbyOk, Seated, Lists, Adapter.PlayerMove, Adapter.PlayerReply;
    if MoveReply(s, u, a, b).Answered? {
      var r := s.lobby.userRoom[u];
      var c := SeatColor(MemberRole(s.lobby, r, u).value);
      MoveLives(opening, s.engines[r], c, a, b);
      EngineKeepsFair(s, r, Adapter.PlayerMove(s.engines[r], c, a, b), opening);
    } else {
      OnwardSame(s.lobby);
    }
  }

  // ---- Rating ----

  lemma MarkEffect(l: Lobby, r: RoomId)
    requires LobbyOk(l)
    ensures var n := MarkEloUpdated(l, r);
            && LobbyOk(n) && n.rooms.Keys == l.rooms.Keys
            && forall q | q in l.rooms ::
                 && Seated(n.rooms[q]) == Seated(l.rooms[q])
                 && (n.rooms[q].eloUpdated <==> q == r || l.rooms[q].eloUpdated)
  {
    hide LobbyOk;
    MarkKeeps(l, r);
  }

  lemma SeatedHolders(l: Lobby, r: RoomId)
    requires LobbyOk(l) && r in l.rooms && Holder(l, r, WhiteSeat).Some? && Holder(l, r, BlackSeat).Some?
    ensures Seated(l.rooms[r]) == [Holder(l, r, WhiteSeat).value, Holder(l, r, BlackSeat).value]
  {
    hide Holder, Seats;
    HolderIs(l, r);
  }

  /** What rating a room does to the rooms, the games and the history. */
  lemma ApplyEloEffect(s: Server, r: RoomId, odds: Odds)
    requires Sane(s) && LobbyOk(s.lobby) && Ratable(s, r) && r in s.lobby.rooms
    ensures var n, h := ApplyElo(s, r, odds), ResultOf(s, r, odds);
            && Sane(n) && LobbyOk(n.lobby) && n.lobby.rooms.Keys == s.lobby.rooms.Keys
            && n.engines == s.engines && n.started == s.started && n.history == s.history + [h]
            && h.room == r && EloUpdated(n.lobby, r) && Seated(n.lobby.rooms[r]) == [h.white, h.black]
            && s.engines[r].winner == Some(h.winner)
            && forall q | q in s.lobby.rooms && q != r ::
                 && Seated(n.lobby.rooms[q]) == Seated(s.lobby.rooms[q])
                 && (EloUpdated(n.lobby, q) <==> EloUpdated(s.lobby, q))
  {
    hide LobbyOk, Seated, Holder, NewRatings, MarkEloUpdated;
    MarkEffect(s.lobby, r);
    SeatedHolders(s.lobby, r);
  }

  /** One more record, of a room not rated before, keeps the books. */
  lemma OneMoreRecord(s: Server, n: Server, h: GameResult)
    requires Booked(s) && !EloUpdated(s.lobby, h.room) && n.history == s.history + [h] && Recorded(n, h)
    requires n.engines == s.engines && n.lobby.rooms.Keys == s.lobby.rooms.Keys
    requires forall q | q in s.lobby.rooms && q != h.room ::
               && Seated(n.lobby.rooms[q]) == Seated(s.lobby.rooms[q])
               && (EloUpdated(n.lobby, q) <==> EloUpdated(s.lobby, q))
    ensures Booked(n)
  {
    hide Seated;
    var k := |s.history|;
    forall i | 0 <= i < |n.history| ensures Recorded(n, n.history[i]) {
      if i < k { assert Recorded(s, s.history[i]); }
    }
    forall q | EloUpdated(n.lobby, q) ensures InHistory(n, q) {
      if q == h.room {
        assert n.history[k].room == q;
      } else {
        assert InHistory(s, q);
        var i :| 0 <= i < k && s.history[i].room == q;
        assert n.history[i].room == q;
      }
    }
  }

  /** Rating a finished game books it, once. */
  lemma ApplyEloKeeps(s: Server, r: RoomId, odds: Odds, opening: Game)
    requires Fair(s, opening) && Booked(s) && r in s.engines && s.engines[r].over
    ensures Fair(ApplyElo(s, r, odds), opening) && Booked(ApplyElo(s, r, odds))
  {
    hide Live, LobbyOk, Seated, Lists, Holder, NewRatings, Booked;
    if Ratable(s, r) {
      ApplyEloEffect(s, r, odds);
      OneMoreRecord(s, ApplyElo(s, r, odds), ResultOf(s, r, odds));
    }
  }

  lemma TickRoomKeeps(s: Server, r: RoomId, odds: Odds, opening: Game)
    requires Fair(s, opening) && Booked(s)
    ensures Fair(TickRoom(s, r, odds), opening) && Booked(TickRoom(s, r, odds))
  {
    hide Live, LobbyOk, Lists, Tick, ApplyElo, Forward, Booked;
    if r in s.engines {
      TickLives(opening, s.engines[r]);
      EngineKeepsFair(s, r, Tick(s.engines[r], TICK_MS), opening);
      var t := s.(engines := s.engines[r := Tick(s.engines[r], TICK_MS)]);
      ForwardKeepsBooked(s, t);
      if t.engines[r].over { ApplyEloKeeps(t, r, odds, opening); }
    }
  }

  lemma {:induction false} TickRoomsKeep(s: Server, q: seq<RoomId>, odds: Odds, opening: Game)
    requires Fair(s, opening) && Booked(s)
    ensures Fair(TickRooms(s, q, odds), opening) && Booked(TickRooms(s, q, odds))
    decreases |q|
  {
    hide Fair, Booked, TickRoom;
    FairLobby(s, opening);
    if q != [] {
      TickRoomKeeps(s, q[0], odds, opening);
      TickRoomsKeep(TickRoom(s, q[0], odds), q[1..], odds, opening);
    }
  }

  lemma ForceForfeitKeeps(s: Server, r: RoomId, u: UserId, odds: Odds, opening: Game)
    requires Fair(s, opening) && Booked(s)
    ensures Fair(ForceForfeit(s, r, u, odds), opening) && Booked(ForceForfeit(s, r, u, odds))
  {
    hide Live, LobbyOk, Lists, Forfeit, ApplyElo, Forward, Booked, SideOf;
    if r in s.engines && !s.engines[r].over && SideOf(s.lobby, r, u).Some? {
      var c := SideOf(s.lobby, r, u).value.Other();
      ForfeitLives(opening, s.engines[r], c);
      EngineKeepsFair(s, r, Forfeit(s.engines[r], c), opening);
      var t := s.(engines := s.engines[r := Forfeit(s.engines[r], c)]);
      ForwardKeepsBooked(s, t);
      ApplyEloKeeps(t, r, odds, opening);
    }
  }

  lemma ClearKeepsFair(s: Server, r: RoomId, u: UserId, opening: Game)
    requires Fair(s, opening)
    ensures Fair(Clear(s, r, u), opening) && Forward(s, Clear(s, r, u))
  {
    hide Live, LobbyOk, Lists;
    ClearOnward(s.lobby, r, u);
    LobbyKeepsFair(s, ClearDeadline(s.lobby, r, u), opening);
  }

  lemma {:induction false} ForfeitAllKeeps(s: Server, q: seq<(RoomId, UserId)>, odds: Odds, opening: Game)
    requires Fair(s, opening) && Booked(s)
    ensures Fair(ForfeitAll(s, q, odds), opening) && Booked(ForfeitAll(s, q, odds))
    decreases |q|
  {
    hide Booked, ForceForfeit, Clear, Forward, LobbyOk, Live, Lists;
    if q != [] {
      var t := ForceForfeit(s, q[0].0, q[0].1, odds);
      ForceForfeitKeeps(s, q[0].0, q[0].1, odds, opening);
      ClearKeepsFair(t, q[0].0, q[0].1, opening);
      ForwardKeepsBooked(t, Clear(t, q[0].0, q[0].1));
      ForfeitAllKeeps(Clear(t, q[0].0, q[0].1), q[1..], odds, opening);
    }
  }

  lemma QuietKeeps(s: Server, e: GameServer.Event, cfg: Setting)
    requires Fair(s, cfg.opening) && Sound(cfg.opening) && !cfg.opening.over && Allowed(s, e)
    requires !e.TickAll? && !e.Grace?
    ensures Fair(GameServer.Next(s, e, cfg), cfg.opening) && Forward(s, GameServer.Next(s, e, cfg))
  {
    hide Live, LobbyOk, Lists, Forward, Create, Match, Join, SubmitMove, Agree;
    FairLobby(s, cfg.opening);
    match e
    case CreateEvent(u, id) => CreateKeepsFair(s, u, id, cfg.opening);
    case MatchEvent(a, b, id) => MatchKeepsFair(s, a, b, id, cfg.opening);
    case JoinEvent(u, r) => JoinKeepsFair(s, u, r, cfg.opening);
    case Drop(u, now) =>
      DisconnectOnward(s.lobby, u, now);
      LobbyKeepsFair(s, MarkDisconnected(s.lobby, u, now), cfg.opening);
    case Return(u) =>
      ReconnectOnward(s.lobby, u);
      LobbyKeepsFair(s, Reconnect(s.lobby, u), cfg.opening);
    case Submit(u, a, b) => SubmitKeepsFair(s, u, a, b, cfg.opening);
  }

  lemma NextKeeps(s: Server, e: GameServer.Event, cfg: Setting)
    requires Fair(s, cfg.opening) && Booked(s) && Sound(cfg.opening) && !cfg.opening.over && Allowed(s, e)
    ensures Fair(GameServer.Next(s, e, cfg), cfg.opening) && Booked(GameServer.Next(s, e, cfg))
  {
    hide Fair, Booked, Forward, TickRooms, ForfeitAll, Create, Match, Join, SubmitMove, Allowed,
         MarkDisconnected, Reconnect;
    FairLobby(s, cfg.opening);
    if e.TickAll? {
      TickRoomsKeep(s, s.started, cfg.odds, cfg.opening);
    } else if e.Grace? {
      ForfeitAllKeeps(s, Expired(s.lobby, e.now), cfg.odds, cfg.opening);
    } else {
      QuietKeeps(s, e, cfg);
      ForwardKeepsBooked(s, GameServer.Next(s, e, cfg));
    }
  }

  lemma AllowedPrefix(users: map<UserId, int>, es: seq<GameServer.Event>, cfg: Setting)
    requires Sound(cfg.opening) && AllAllowed(users, es, cfg) && es != []
    ensures AllAllowed(users, es[..|es| - 1], cfg)
    ensures Allowed(GameServer.Run(users, es[..|es| - 1], cfg), es[|es| - 1])
  {
    hide GameServer.Run, Allowed;
    var p := es[..|es| - 1];
    forall k | 0 <= k < |p| ensures Allowed(GameServer.Run(users, p[..k], cfg), p[k]) {
      assert p[..k] == es[..k];
    }
  }

  /** A run of the server, one event longer. */
  lemma OneMoreEvent(users: map<UserId, int>, es: seq<GameServer.Event>, e: GameServer.Event, cfg: Setting)
    requires Sound(cfg.opening) && AllAllowed(users, es, cfg) && Allowed(GameServer.Run(users, es, cfg), e)
    ensures GameServer.Run(users, es + [e], cfg) == GameServer.Next(GameServer.Run(users, es, cfg), e, cfg)
    ensures AllAllowed(users, es + [e], cfg)
  {
    hide GameServer.Next, Allowed;
    var all := es + [e];
    assert all[..|es|] == es;
    forall k | 0 <= k < |all| ensures Allowed(GameServer.Run(users, all[..k], cfg), all[k]) {
      if k < |es| { assert all[..k] == es[..k]; }
    }
  }

  lemma FreshKeeps(users: map<UserId, int>, opening: Game)
    ensures Fair(Fresh(users), opening) && Booked(Fresh(users))
  {
  }

  /** Every run of the server keeps the two invariants: a user maps to the room he is in and to no
      other, seats stay, games are runs of the engine, and no game is rated twice or wrongly. */
  lemma {:induction false} RunKeeps(users: map<UserId, int>, es: seq<GameServer.Event>, cfg: Setting)
    requires Sound(cfg.opening) && !cfg.opening.over && AllAllowed(users, es, cfg)
    ensures Fair(GameServer.Run(users, es, cfg), cfg.opening) && Booked(GameServer.Run(users, es, cfg))
    decreases |es|
  {
    hide Fair, Booked, GameServer.Next, Fresh, AllAllowed, Allowed;
    if es == [] {
      FreshKeeps(users, cfg.opening);
    } else {
      AllowedPrefix(users, es, cfg);
      RunKeeps(users, es[..|es| - 1], cfg);
      NextKeeps(GameServer.Run(users, es[..|es| - 1], cfg), es[|es| - 1], cfg);
    }
  }
}
