/** The game service and the background loop over mutable objects: rooms, and a table with one game engine
    for each of them. `Model` is the state of the whole server in the terms of `GameServer`. */
module GameService {
  import opened Basics
  import opened Play
  import opened Rooms
  import opened GameServer
  import Adapter
  import BackgroundLoop
  import Countdowns
  import GameTable
  import MatchingLaws
  import Matchmaking
  import MatchmakingService
  import RoomService

  class GameService {
    const rooms: RoomService.RoomService
    const games: GameTable.GameTable
    const odds: Odds
    ghost const cfg: Setting
    var ratings: map<UserId, int>
    var history: seq<GameResult>

    ghost function Model(): Server
      reads this, rooms, games
    {
      Server(rooms.model, games.model, games.started, ratings, history)
    }

    /** Games and rooms are in order and share no object. */
    ghost predicate Valid()
      reads rooms, rooms.rooms.Values, rooms.People(), games, games.Repr
    {
      rooms.Valid() && games.Valid() && cfg == Setting(games.Opening(), odds)
    }

    constructor (rooms: RoomService.RoomService, games: GameTable.GameTable, users: map<UserId, int>, odds: Odds)
      requires rooms.Valid() && rooms.model == EMPTY_LOBBY
      requires games.Valid() && games.model == map[] && games.started == []
      ensures Valid() && Model() == Fresh(users) && this.rooms == rooms && this.games == games
      ensures cfg == Setting(games.Opening(), odds)
    {
      this.rooms, this.games, this.odds := rooms, games, odds;
      cfg := Setting(games.Opening(), odds);
      ratings, history := users, [];
    }

    lemma SaneModel()
      requires games.Valid() && cfg == Setting(games.Opening(), odds)
      ensures Sane(Model()) && Sound(cfg.opening) && games.model.Keys == games.engines.Keys
    {
      hide GameTable.GameTable.Opening, Sound;
      games.SoundOpening();
      forall r | r in games.engines ensures r in games.model && Sound(games.model[r]) { games.SoundGame(r); }
      games.SameKeys();
    }

    /** Rooms and their members are no part of any game. */
    lemma Apart()
      requires games.Valid()
      ensures this !in games.Repr && rooms !in games.Repr && games !in games.Repr
      ensures forall o | o in rooms.rooms.Values :: o !in games.Repr
      ensures forall o | o in rooms.People() :: o !in games.Repr
    {
      games.OnlyGameObjects();
      assert !Adapter.OfGame(this) && !Adapter.OfGame(rooms) && !Adapter.OfGame(games);
      forall o | o in rooms.rooms.Values ensures o !in games.Repr { assert !Adapter.OfGame(o); }
      forall o | o in rooms.People() ensures o !in games.Repr { assert !Adapter.OfGame(o); }
    }

    // ---- rooms ----

    /** Called for every room that is created: set up its game, unless there is one. */
    method OnRoomCreated(r: RoomId)
      requires games.Valid() && cfg == Setting(games.Opening(), odds)
      modifies games
      ensures games.Valid() && Model() == OpenEngine(old(Model()), r, cfg.opening)
      ensures fresh(games.Repr - old(games.Repr))
    {
      hide GameTable.GameTable.Valid, GameTable.GameTable.Opening, Sound;
      SaneModel();
      if r !in games.engines { games.Open(r); }
    }

    /** The room id is a random one; the lobby stays in order if and only if it was not taken. */
    method CreateRoom(u: UserId, id: RoomId) returns (refused: Option<Refusal>)
      requires Valid()
      modifies games, rooms
      ensures rooms.Tied() && games.Valid() && Model() == Create(old(Model()), u, id, cfg.opening)
      ensures refused == Creatable(old(rooms.model), u)
      ensures Valid() <==> refused.Some? || id !in old(rooms.rooms)
    {
      hide LobbyOk, Sound, Sane, GameTable.GameTable.EnginesOk, GameTable.GameTable.Known, GameTable.GameTable.Opening,
           RoomService.RoomObject.Is;
      SaneModel();
      Apart();
      refused := rooms.CreateRoom(u, id);
      if refused.None? { OnRoomCreated(id); }
    }

    method CreateMatchedRoom(a: UserId, b: UserId, id: RoomId) returns (refused: Option<Refusal>)
      requires Valid()
      modifies games, rooms
      ensures rooms.Tied() && games.Valid() && Model() == Match(old(Model()), a, b, id, cfg.opening)
      ensures refused == Matchable(old(rooms.model), a, b, id)
      ensures Valid() <==> refused.Some? || a != b
      ensures forall o | o in games.Repr :: o in old(games.Repr) || fresh(o)
      ensures forall o | o in rooms.Objects() :: o in old(rooms.Objects()) || fresh(o)
    {
      hide LobbyOk, Sound, Sane, GameTable.GameTable.EnginesOk, GameTable.GameTable.Known, GameTable.GameTable.Opening,
           RoomService.RoomObject.Is;
      SaneModel();
      Apart();
      refused := rooms.CreateMatchedRoom(a, b, id);
      if refused.None? { OnRoomCreated(id); }
    }

    method JoinRoom(r: RoomId, u: UserId) returns (refused: Option<Refusal>, role: Role)
      requires Valid()
      modifies games, rooms, rooms.rooms.Values
      ensures Valid() && Model() == Join(old(Model()), u, r, cfg.opening)
      ensures refused == Joinable(old(rooms.model), u, r)
      ensures refused.None? ==> role == NextRole(old(rooms.model).rooms[r])
    {
      hide LobbyOk, Sound, Sane, GameTable.GameTable.EnginesOk, GameTable.GameTable.Known, GameTable.GameTable.Opening,
           RoomService.RoomObject.Is;
      SaneModel();
      Apart();
      var starts;
      refused, role, starts := rooms.JoinRoom(r, u);
      if starts { OnRoomCreated(r); }
    }

    // ---- moves ----

    method HandleMove(r: RoomId, c: Color, start: Position, end: Position) returns (outcome: MoveOutcome)
      requires Valid()
      modifies games`model, games`Repr, games.Repr
      ensures Valid() && (r in old(games.model) <==> outcome != NoActiveGame)
      ensures games.model == if r in old(games.model)
                then old(games.model)[r := Adapter.PlayerMove(old(games.model)[r], c, start, end)] else old(games.model)
      ensures r in old(games.model) ==> outcome == Answered(Adapter.PlayerReply(old(games.model)[r], c, start, end))
      ensures games.started == old(games.started) && fresh(games.Repr - old(games.Repr))
    {
      hide LobbyOk, Sound, Sane, GameTable.GameTable.EnginesOk, GameTable.GameTable.Known, GameTable.GameTable.Opening,
           RoomService.RoomObject.Is, Adapter.PlayerMove, Adapter.PlayerReply;
      SaneModel();
      Apart();
      if r !in games.engines { return NoActiveGame; }
      var reply := games.MoveInGame(r, c, start, end);
      outcome := Answered(reply);
    }

    /** Answers the mover, and lists those who are told of a move that was made. */
    method SubmitMove(u: UserId, start: Position, end: Position) returns (outcome: MoveOutcome, told: seq<UserId>)
      requires Valid()
      modifies games`model, games`Repr, games.Repr
      ensures Valid() && Model() == GameServer.SubmitMove(old(Model()), u, start, end)
      ensures outcome == MoveReply(old(Model()), u, start, end)
      ensures told == MoveTold(old(rooms.model), u, outcome)
      ensures fresh(games.Repr - old(games.Repr))
    {
      hide LobbyOk, Sound, Sane, GameTable.GameTable.EnginesOk, GameTable.GameTable.Known, GameTable.GameTable.Opening,
           RoomService.RoomObject.Is, Adapter.PlayerMove, Adapter.PlayerReply;
      SaneModel();
      Apart();
      var known := u in rooms.userRoom;
      if !known { return NotInARoom, []; }
      var r := rooms.userRoom[u];
      var role := rooms.GetMemberRole(r, u);
      if role == None || role == Some(Viewer) { return ViewersCannotMove, []; }
      outcome := HandleMove(r, SeatColor(role.value), start, end);
      told := [];
      if outcome == Answered(Adapter.Accepted) {
        told := rooms.GetMembers(r);
        assert games.Valid();
      }
    }

    // ---- ratings ----

    /** Store the new ratings, mark the room and write the record. */
    method Record(h: GameResult)
      requires Valid()
      modifies this`ratings, this`history, rooms`model, rooms.rooms.Values`eloUpdated
      ensures Valid()
      ensures Model() == old(Model()).(
                ratings := old(ratings)[h.white := h.whiteAfter][h.black := h.blackAfter],
                lobby := MarkEloUpdated(old(rooms.model), h.room),
                history := old(history) + [h])
    {
      hide LobbyOk, Sound, Sane, GameTable.GameTable.EnginesOk, GameTable.GameTable.Known, GameTable.GameTable.Opening,
           MarkEloUpdated, RoomService.RoomService.Tied;
      Apart();
      ratings := ratings[h.white := h.whiteAfter];
      ratings := ratings[h.black := h.blackAfter];
      history := history + [h];
      rooms.MarkEloUpdated(h.room);
    }

    /** The result of the game in room r, if it is to be rated now. */
    method RatableResult(r: RoomId) returns (h: Option<GameResult>)
      requires Valid() && r in games.engines
      ensures h.Some? <==> Ratable(Model(), r)
      ensures h.Some? ==> h.value == ResultOf(Model(), r, odds)
    {
      hide LobbyOk, Sound, Sane, GameTable.GameTable.EnginesOk, GameTable.GameTable.Known, GameTable.GameTable.Opening,
           RoomService.RoomObject.Is, NewRatings, Holder;
      SaneModel();
      var updated := rooms.IsEloUpdated(r);
      var winner := games.WinnerOf(r);
      if updated || winner.None? { return None; }
      var white, black := rooms.GetRoomPlayers(r);
      if white.None? || black.None? { return None; }
      if white.value !in ratings || black.value !in ratings { return None; }
      var whiteBefore, blackBefore := ratings[white.value], ratings[black.value];
      var (whiteAfter, blackAfter) := NewRatings(winner.value, whiteBefore, blackBefore, odds);
      return Some(GameResult(r, white.value, black.value, winner.value,
                             whiteBefore, blackBefore, whiteAfter, blackAfter));
    }

    method ApplyElo(r: RoomId)
      requires Valid() && r in games.engines
      modifies this`ratings, this`history, rooms`model, rooms.rooms.Values`eloUpdated
      ensures Valid() && Model() == GameServer.ApplyElo(old(Model()), r, odds)
    {
      hide LobbyOk, Sound, Sane, GameTable.GameTable.EnginesOk, GameTable.GameTable.Known, GameTable.GameTable.Opening,
           RoomService.RoomObject.Is, NewRatings, MarkEloUpdated, Ratable;
      SaneModel();
      var h := RatableResult(r);
      if h.Some? { Record(h.value); }
    }

    // ---- the clock ----

    /** One room's share of a tick. */
    method TickOne(r: RoomId)
      requires Valid() && r in games.engines
      modifies this`ratings, this`history, rooms`model, rooms.rooms.Values`eloUpdated, games`model, games.Repr
      ensures Valid() && Model() == TickRoom(old(Model()), r, odds)
      ensures games.engines == old(games.engines) && games.Repr == old(games.Repr)
    {
      hide LobbyOk, Sound, Sane, GameTable.GameTable.EnginesOk, GameTable.GameTable.Known, GameTable.GameTable.Opening,
           RoomService.RoomObject.Is, Tick, GameServer.ApplyElo;
      SaneModel();
      Apart();
      games.TickGame(r);
      var over := games.IsOver(r);
      if over {
        var updated := rooms.IsEloUpdated(r);
        if !updated { ApplyElo(r); }
      }
    }

    method TickAll()
      requires Valid()
      modifies this`ratings, this`history, rooms`model, rooms.rooms.Values`eloUpdated, games`model, games.Repr
      ensures Valid() && Model() == TickRooms(old(Model()), old(games.started), odds)
      ensures games.Repr == old(games.Repr)
    {
      hide LobbyOk, Sound, Sane, GameTable.GameTable.EnginesOk, GameTable.GameTable.Known, GameTable.GameTable.Opening,
           RoomService.RoomObject.Is, TickRoom;
      ghost var first := Model();
      var q := games.started;
      SaneModel();
      Apart();
      assert q[0..] == q;
      for i := 0 to |q|
        invariant Valid() && games.started == q && games.Repr == old(games.Repr) && rooms.rooms == old(rooms.rooms)
        invariant Sane(Model()) && TickRooms(Model(), q[i..], odds) == TickRooms(first, q, odds)
      {
        assert q[i..][1..] == q[i + 1..] && q[i] in games.engines;
        Apart();
        TickOne(q[i]);
      }
      assert q[|q|..] == [];
    }

    // ---- forfeits ----

    ghost predicate SameRooms(places: map<RoomId, RoomService.RoomObject>, people: set<RoomService.RoomMember>)
      reads rooms`rooms, rooms.rooms.Values`members
    {
      rooms.rooms == places && rooms.People() == people
    }

    method FindSide(r: RoomId, u: UserId) returns (side: Option<Color>)
      requires Valid()
      ensures side == SideOf(rooms.model, r, u)
    {
      hide LobbyOk, Sound, Sane, GameTable.GameTable.EnginesOk, GameTable.GameTable.Known, GameTable.GameTable.Opening,
           RoomService.RoomObject.Is, Holder;
      var white, black := rooms.GetRoomPlayers(r);
      return if Some(u) == white then Some(White) else if Some(u) == black then Some(Black) else None;
    }

    method ForceForfeit(r: RoomId, loser: UserId)
      requires Valid()
      modifies this`ratings, this`history, rooms`model, rooms.rooms.Values`eloUpdated, games`model, games.Repr
      ensures Valid() && Model() == GameServer.ForceForfeit(old(Model()), r, loser, odds)
      ensures games.Repr == old(games.Repr) && SameRooms(old(rooms.rooms), old(rooms.People()))
    {
      hide LobbyOk, Sound, Sane, GameTable.GameTable.EnginesOk, GameTable.GameTable.Known, GameTable.GameTable.Opening,
           RoomService.RoomObject.Is, Forfeit, GameServer.ApplyElo, SideOf;
      SaneModel();
      if r !in games.engines { return; }
      var over := games.IsOver(r);
      if over { return; }
      var side := FindSide(r, loser);
      if side.None? { return; }
      EndGame(r, side.value.Other());
    }

    /** Give the game to the winner, and rate it. */
    method EndGame(r: RoomId, winner: Color)
      requires Valid() && r in games.engines
      modifies this`ratings, this`history, rooms`model, rooms.rooms.Values`eloUpdated, games`model, games.Repr
      ensures Valid() && Sane(old(Model())) && r in old(games.model)
      ensures var s := old(Model());
              Model() == GameServer.ApplyElo(s.(engines := s.engines[r := Forfeit(s.engines[r], winner)]), r, odds)
      ensures games.Repr == old(games.Repr) && SameRooms(old(rooms.rooms), old(rooms.People()))
    {
      hide LobbyOk, Sound, Sane, GameTable.GameTable.EnginesOk, GameTable.GameTable.Known, GameTable.GameTable.Opening,
           RoomService.RoomObject.Is, RoomService.RoomService.Tied, Forfeit, GameServer.ApplyElo;
      SaneModel();
      Apart();
      games.ForfeitGame(r, winner);
      ApplyElo(r);
    }

    method ClearDeadline(r: RoomId, u: UserId)
      requires Valid()
      modifies rooms`model, rooms.People()
      ensures Valid() && Model() == Clear(old(Model()), r, u)
      ensures SameRooms(old(rooms.rooms), old(rooms.People()))
    {
      hide LobbyOk, Sound, Sane, GameTable.GameTable.EnginesOk, GameTable.GameTable.Known, GameTable.GameTable.Opening,
           RoomService.RoomObject.Is, Rooms.ClearDeadline;
      SaneModel();
      Apart();
      rooms.ClearDisconnectDeadline(r, u);
    }

    method ForfeitEach(q: seq<(RoomId, UserId)>)
      requires Valid()
      modifies this`ratings, this`history, rooms`model, rooms.rooms.Values`eloUpdated, rooms.People()
      modifies games`model, games.Repr
      ensures Valid() && Model() == ForfeitAll(old(Model()), q, odds)
      ensures games.Repr == old(games.Repr)
    {
      hide LobbyOk, Sound, Sane, GameTable.GameTable.EnginesOk, GameTable.GameTable.Known, GameTable.GameTable.Opening,
           RoomService.RoomObject.Is, ForfeitAll, Clear, GameServer.ForceForfeit, RoomService.RoomService.Tied;
      SaneModel();
      Apart();
      ghost var first := Model();
      assert q[0..] == q;
      for i := 0 to |q|
        invariant Valid() && games.Repr == old(games.Repr)
        invariant SameRooms(old(rooms.rooms), old(rooms.People()))
        invariant Sane(Model()) && ForfeitAll(Model(), q[i..], odds) == ForfeitAll(first, q, odds)
      {
        ForfeitStep(Model(), q, i, odds);
        ForfeitOne(q[i].0, q[i].1);
        SaneModel();
      }
      ForfeitEnd(Model(), odds);
      assert q[|q|..] == [];
    }

    method Disconnect(u: UserId, now: real) returns (told: seq<UserId>)
      requires Valid()
      modifies rooms, rooms.rooms.Values, rooms.People()
      ensures Valid() && Model() == old(Model()).(lobby := MarkDisconnected(old(rooms.model), u, now))
      ensures told == Told(old(rooms.model), rooms.model, u)
    {
      hide LobbyOk, Sound, Sane, GameTable.GameTable.EnginesOk, GameTable.GameTable.Known, GameTable.GameTable.Opening,
           RoomService.RoomObject.Is, MarkDisconnected, IsPlayer;
      Apart();
      var room := rooms.MarkDisconnected(u, now);
      assert games.Valid();
      if room.None? { return []; }
      told := rooms.GetMembers(room.value);
    }

    method ComeBack(u: UserId) returns (room: Option<RoomId>)
      requires Valid()
      modifies rooms`model, rooms.People()
      ensures Valid() && Model() == old(Model()).(lobby := Reconnect(old(rooms.model), u))
      ensures room == if u in old(rooms.model).userRoom then Some(old(rooms.model).userRoom[u]) else None
    {
      hide LobbyOk, Sound, Sane, GameTable.GameTable.EnginesOk, GameTable.GameTable.Known, GameTable.GameTable.Opening,
           RoomService.RoomObject.Is, Reconnect;
      Apart();
      room := rooms.Reconnect(u);
    }

    method ForfeitOne(r: RoomId, loser: UserId)
      requires Valid()
      modifies this`ratings, this`history, rooms`model, rooms.rooms.Values`eloUpdated, rooms.People()
      modifies games`model, games.Repr
      ensures Valid() && Model() == Clear(GameServer.ForceForfeit(old(Model()), r, loser, odds), r, loser)
      ensures games.Repr == old(games.Repr)
      ensures SameRooms(old(rooms.rooms), old(rooms.People()))
    {
      hide LobbyOk, Sound, Sane, GameTable.GameTable.EnginesOk, GameTable.GameTable.Known, GameTable.GameTable.Opening,
           RoomService.RoomObject.Is, RoomService.RoomService.Tied, GameServer.ForceForfeit, Clear;
      Apart();
      ForceForfeit(r, loser);
      ClearDeadline(r, loser);
    }
  }

  lemma ForfeitStep(s: Server, q: seq<(RoomId, UserId)>, i: nat, odds: Odds)
    requires Sane(s) && i < |q|
    ensures ForfeitAll(s, q[i..], odds)
            == ForfeitAll(Clear(GameServer.ForceForfeit(s, q[i].0, q[i].1, odds), q[i].0, q[i].1), q[i + 1..], odds)
  {
  }

  lemma ForfeitEnd(s: Server, odds: Odds)
    requires Sane(s)
    ensures ForfeitAll(s, [], odds) == s
  {
  }

  class ServerRuntime {
    const matchmaking: MatchmakingService.MatchmakingService
    const service: GameService
    /** The seconds last announced for each absent player. */
    var lastSent: map<(RoomId, UserId), nat>

    constructor (matchmaking: MatchmakingService.MatchmakingService, service: GameService)
      ensures this.matchmaking == matchmaking && this.service == service && lastSent == map[]
    {
      this.matchmaking, this.service, lastSent := matchmaking, service, map[];
    }

    /** Starts the grace period of a player, and lists those who are told. */
    method OnClientDisconnected(u: UserId, now: real) returns (told: seq<UserId>)
      requires matchmaking.Valid() && service.Valid()
      modifies matchmaking, service.rooms, service.rooms.rooms.Values, service.rooms.People()
      ensures matchmaking.Valid() && matchmaking.queue == Matchmaking.Unused(old(matchmaking.queue), {u})
      ensures service.Valid()
      ensures service.Model() == old(service.Model()).(lobby := MarkDisconnected(old(service.rooms.model), u, now))
      ensures told == Told(old(service.rooms.model), service.rooms.model, u)
    {
      hide LobbyOk, Sound, Sane, GameTable.GameTable.EnginesOk, GameTable.GameTable.Known, GameTable.GameTable.Opening,
           RoomService.RoomObject.Is, MarkDisconnected, MatchmakingService.MatchmakingService.Valid;
      service.Apart();
      NotInGame();
      var cancelled := matchmaking.Cancel(u);
      told := service.Disconnect(u, now);
    }

    lemma NotInGame()
      requires service.games.Valid()
      ensures matchmaking !in service.games.Repr && this !in service.games.Repr
    {
      service.games.OnlyGameObjects();
      assert !Adapter.OfGame(matchmaking) && !Adapter.OfGame(this);
    }

    /** A user who logs in again. */
    method OnClientReturned(u: UserId) returns (room: Option<RoomId>)
      requires service.Valid()
      modifies service.rooms`model, service.rooms.People()
      ensures service.Valid()
      ensures service.Model() == old(service.Model()).(lobby := Reconnect(old(service.rooms.model), u))
      ensures room == var l := old(service.rooms.model); if u in l.userRoom then Some(l.userRoom[u]) else None
    {
      hide LobbyOk, Sound, Sane, GameTable.GameTable.EnginesOk, GameTable.GameTable.Known, GameTable.GameTable.Opening,
           RoomService.RoomObject.Is, Reconnect;
      service.Apart();
      NotInGame();
      room := service.ComeBack(u);
    }

    /** Tell the others how long the absent players have left, but no number twice running. */
    method Announce(now: real) returns (notices: seq<Countdowns.Notice>)
      requires service.Valid()
      modifies this`lastSent
      ensures var l := service.rooms.model;
              notices == Countdowns.Addressed(l, Countdowns.Notices(Countdowns.Running(l, now), old(lastSent)))
      ensures lastSent == Countdowns.Sent(Countdowns.Running(service.rooms.model, now), old(lastSent))
    {
      hide LobbyOk, Sound, Sane, GameTable.GameTable.EnginesOk, GameTable.GameTable.Known, GameTable.GameTable.Opening,
           RoomService.RoomObject.Is, Countdowns.Running, Countdowns.Addressed, Countdowns.Notices, Countdowns.Sent,
           Countdowns.Announced;
      notices := [];
      ghost var l := service.rooms.model;
      var q := service.rooms.DisconnectCountdowns(now);
      assert q[0..] == q;
      for i := 0 to |q|
        invariant service.rooms.Valid() && service.rooms.model == l
        invariant notices + Countdowns.Addressed(l, Countdowns.Notices(q[i..], lastSent))
               == Countdowns.Addressed(l, Countdowns.Notices(q, old(lastSent)))
        invariant Countdowns.Sent(q[i..], lastSent) == Countdowns.Sent(q, old(lastSent))
      {
        Countdowns.AddressStep(l, q, i, lastSent);
        Countdowns.AddressOne(l, q[i]);
        if !Countdowns.Announced(q[i], lastSent) {
          var to := service.rooms.GetMembers(q[i].room);
          notices := notices + [Countdowns.Notice(q[i], to)];
        }
        lastSent := lastSent[q[i].Key() := q[i].left];
      }
      Countdowns.NoneLeft(l, q, lastSent);
    }

    /** The scan for players whose grace is over: a list is taken first, then each is made to forfeit, and
        their countdowns are forgotten. */
    method ForfeitExpired(now: real)
      requires service.Valid()
      modifies this`lastSent, service`ratings, service`history
      modifies service.rooms`model, service.rooms.rooms.Values`eloUpdated, service.rooms.People()
      modifies service.games`model, service.games.Repr
      ensures service.Valid()
      ensures service.Model() == ForfeitAll(old(service.Model()), Expired(old(service.rooms.model), now), service.odds)
      ensures lastSent == old(lastSent) - set x | x in Expired(old(service.rooms.model), now)
    {
      hide LobbyOk, Sound, Sane, GameTable.GameTable.EnginesOk, GameTable.GameTable.Known, GameTable.GameTable.Opening,
           RoomService.RoomObject.Is, ForfeitAll, Expired, RoomService.RoomService.Tied;
      service.SaneModel();
      service.Apart();
      NotInGame();
      var q := service.rooms.ExpiredDisconnects(now);
      lastSent := lastSent - set x | x in q;
      service.ForfeitEach(q);
    }

    method ProcessDisconnectGrace(now: real) returns (notices: seq<Countdowns.Notice>)
      requires service.Valid()
      modifies this`lastSent, service`ratings, service`history
      modifies service.rooms`model, service.rooms.rooms.Values`eloUpdated, service.rooms.People()
      modifies service.games`model, service.games.Repr
      ensures service.Valid() && Sane(old(service.Model())) && Sound(service.cfg.opening)
      ensures service.Model() == GameServer.Next(old(service.Model()), Grace(now), service.cfg)
      ensures var l := old(service.rooms.model);
              && notices == Countdowns.Addressed(l, Countdowns.Notices(Countdowns.Running(l, now), old(lastSent)))
              && lastSent == Countdowns.Sent(Countdowns.Running(l, now), old(lastSent)) - set x | x in Expired(l, now)
    {
      hide LobbyOk, Sound, Sane, GameTable.GameTable.EnginesOk, GameTable.GameTable.Known, GameTable.GameTable.Opening,
           RoomService.RoomObject.Is, ForfeitAll, Expired, RoomService.RoomService.Tied, Countdowns.Running;
      service.SaneModel();
      service.Apart();
      NotInGame();
      notices := Announce(now);
      ForfeitExpired(now);
    }

    /** Give rooms to the pairs, until the first that is refused one. */
    method SeatAll(ps: seq<Matchmaking.Pair>, ids: seq<RoomId>) returns (made: nat)
      requires service.Valid() && |ids| >= |ps| && forall p | p in ps :: p.white.userId != p.black.userId
      modifies service.games, service.rooms
      ensures service.Valid() && Sane(old(service.Model())) && Sound(service.cfg.opening) && made <= |ps|
      ensures service.Model() == BackgroundLoop.SeatPairs(old(service.Model()), ps[..made], ids, service.cfg.opening)
      ensures BackgroundLoop.StopsAfter(old(service.Model()), ps, ids, service.cfg.opening, made)
      ensures forall o | o in service.games.Repr :: o in old(service.games.Repr) || fresh(o)
      ensures forall o | o in service.rooms.Objects() :: o in old(service.rooms.Objects()) || fresh(o)
    {
      hide LobbyOk, Sound, Sane, GameTable.GameTable.EnginesOk, GameTable.GameTable.Known, GameTable.GameTable.Opening,
           RoomService.RoomObject.Is, BackgroundLoop.SeatPairs, BackgroundLoop.Seatable, BackgroundLoop.StopsAfter,
           Match, Matchable, RoomService.RoomService.Objects;
      service.SaneModel();
      made := 0;
      ghost var s := service.Model();
      assert ps[..0] == [];
      BackgroundLoop.NoneSeated(s, ids, service.cfg.opening);
      while made < |ps|
        invariant made <= |ps| && service.Valid() && Sane(service.Model())
        invariant service.Model() == BackgroundLoop.SeatPairs(s, ps[..made], ids, service.cfg.opening)
        invariant forall k | 0 <= k < made :: BackgroundLoop.Seatable(s, ps, ids, service.cfg.opening, k)
        invariant forall o | o in service.games.Repr :: o in old(service.games.Repr) || fresh(o)
        invariant forall o | o in service.rooms.Objects() :: o in old(service.rooms.Objects()) || fresh(o)
      {
        var p := ps[made];
        BackgroundLoop.OneSeated(s, ps, ids, service.cfg.opening, made);
        BackgroundLoop.SeatableIs(s, ps, ids, service.cfg.opening, made);
        ghost var t := service.Model();
        var refused := service.CreateMatchedRoom(p.white.userId, p.black.userId, ids[made]);
        if refused.Some? {
          BackgroundLoop.RefusedMatch(t, p.white.userId, p.black.userId, ids[made], service.cfg.opening);
          BackgroundLoop.StopsIs(s, ps, ids, service.cfg.opening, made);
          return;
        }
        service.SaneModel();
        made := made + 1;
      }
      BackgroundLoop.StopsIs(s, ps, ids, service.cfg.opening, made);
    }

    /** Give rooms to the pairs; if all get theirs, their users leave the queue. */
    method SeatOrStop(ps: seq<Matchmaking.Pair>, used: set<UserId>, ids: seq<RoomId>) returns (made: nat)
      requires matchmaking.Valid() && service.Valid()
      requires |ids| >= |ps| && forall p | p in ps :: p.white.userId != p.black.userId
      modifies matchmaking, service.games, service.rooms
      ensures matchmaking.Valid() && service.Valid()
      ensures Sane(old(service.Model())) && Sound(service.cfg.opening) && made <= |ps|
      ensures service.Model() == BackgroundLoop.SeatPairs(old(service.Model()), ps[..made], ids, service.cfg.opening)
      ensures BackgroundLoop.StopsAfter(old(service.Model()), ps, ids, service.cfg.opening, made)
      ensures matchmaking.queue == if made < |ps| then old(matchmaking.queue)
                                   else Matchmaking.Unused(old(matchmaking.queue), used)
      ensures forall o | o in service.games.Repr :: o in old(service.games.Repr) || fresh(o)
      ensures forall o | o in service.rooms.Objects() :: o in old(service.rooms.Objects()) || fresh(o)
    {
      hide LobbyOk, Sound, Sane, GameTable.GameTable.EnginesOk, GameTable.GameTable.Known, GameTable.GameTable.Opening,
           RoomService.RoomObject.Is, BackgroundLoop.SeatPairs, BackgroundLoop.StopsAfter, Matchmaking.Unused;
      made := SeatAll(ps, ids);
      ghost var objects := service.rooms.Objects();
      if made == |ps| {
        NotInGame();
        matchmaking.Drop(used);
        assert service.rooms.Objects() == objects;
      }
    }

    /** One matching pass over the queue. If a pair is refused a room, everybody stays queued, even those
        who have just got theirs. */
    method TryMatch(ids: seq<RoomId>) returns (pairs: seq<Matchmaking.Pair>, made: nat)
      requires matchmaking.Valid() && service.Valid() && |ids| >= |matchmaking.queue|
      modifies matchmaking, service.games, service.rooms
      ensures matchmaking.Valid() && service.Valid() && Sane(old(service.Model())) && Sound(service.cfg.opening)
      ensures pairs == Matchmaking.Pairs(old(matchmaking.queue)) && |ids| >= |pairs| >= made
      ensures service.Model() == BackgroundLoop.SeatPairs(old(service.Model()), pairs[..made], ids, service.cfg.opening)
      ensures BackgroundLoop.StopsAfter(old(service.Model()), pairs, ids, service.cfg.opening, made)
      ensures matchmaking.queue == if made < |pairs| then old(matchmaking.queue)
                                   else Matchmaking.Leftover(old(matchmaking.queue))
      ensures forall o | o in service.games.Repr :: o in old(service.games.Repr) || fresh(o)
      ensures forall o | o in service.rooms.Objects() :: o in old(service.rooms.Objects()) || fresh(o)
    {
      hide LobbyOk, Sound, Sane, GameTable.GameTable.EnginesOk, GameTable.GameTable.Known, GameTable.GameTable.Opening,
           RoomService.RoomObject.Is, BackgroundLoop.SeatPairs, BackgroundLoop.StopsAfter,
           Matchmaking.Pairs, Matchmaking.Leftover, Matchmaking.Unused;
      var used;
      pairs, used := Matchmaking.MatchPass(matchmaking.queue);
      assert service.rooms.Objects() == old(service.rooms.Objects());
      MatchingLaws.PairsFit(matchmaking.queue);
      made := SeatOrStop(pairs, used, ids);
    }

    /** The clock and the scan for deadlines, reached only when the matching pass went through. */
    method TickAndScan(now: real) returns (notices: seq<Countdowns.Notice>)
      requires service.Valid()
      modifies this`lastSent, service`ratings, service`history
      modifies service.rooms`model, service.rooms.Objects(), service.games`model, service.games.Repr
      ensures service.Valid() && Sane(old(service.Model())) && Sound(service.cfg.opening)
      ensures service.Model()
              == GameServer.Next(GameServer.Next(old(service.Model()), TickAll, service.cfg), Grace(now), service.cfg)
      ensures var l := GameServer.Next(old(service.Model()), TickAll, service.cfg).lobby;
              && notices == Countdowns.Addressed(l, Countdowns.Notices(Countdowns.Running(l, now), old(lastSent)))
              && lastSent == Countdowns.Sent(Countdowns.Running(l, now), old(lastSent)) - set x | x in Expired(l, now)
    {
      hide LobbyOk, Sound, Sane, GameTable.GameTable.EnginesOk, GameTable.GameTable.Known, GameTable.GameTable.Opening,
           RoomService.RoomObject.Is, TickRooms, ForfeitAll, RoomService.RoomService.Tied, Countdowns.Running;
      service.SaneModel();
      service.Apart();
      NotInGame();
      service.TickAll();
      notices := ProcessDisconnectGrace(now);
    }

    /** One turn of the background loop. */
    method RunOnce(now: real, ids: seq<RoomId>)
      returns (expired: seq<UserId>, pairs: seq<Matchmaking.Pair>, made: nat, notices: seq<Countdowns.Notice>)
      requires matchmaking.Valid() && service.Valid() && |ids| >= |matchmaking.queue|
      modifies matchmaking, this`lastSent, service`ratings, service`history
      modifies service.rooms, service.rooms.Objects(), service.games, service.games.Repr
      ensures matchmaking.Valid() && service.Valid() && Sane(old(service.Model())) && Sound(service.cfg.opening)
      ensures expired == MatchmakingService.Expired(old(matchmaking.queue), now)
      ensures pairs == Matchmaking.Pairs(MatchmakingService.Waiting(old(matchmaking.queue), now)) && |ids| >= |pairs|
      ensures BackgroundLoop.StopsAfter(old(service.Model()), pairs, ids, service.cfg.opening, made)
      ensures service.Model() == BackgroundLoop.Turn(old(service.Model()), pairs, ids, made, now, service.cfg)
      ensures matchmaking.queue == var q := MatchmakingService.Waiting(old(matchmaking.queue), now);
                                   if made < |pairs| then q else Matchmaking.Leftover(q)
      ensures made < |pairs| ==> notices == [] && lastSent == old(lastSent)
      ensures made == |pairs| ==>
                var l := BackgroundLoop.Ticked(old(service.Model()), pairs, ids, service.cfg).lobby;
                && notices == Countdowns.Addressed(l, Countdowns.Notices(Countdowns.Running(l, now), old(lastSent)))
                && lastSent == Countdowns.Sent(Countdowns.Running(l, now), old(lastSent)) - set x | x in Expired(l, now)
    {
      hide LobbyOk, Sound, Sane, GameTable.GameTable.EnginesOk, GameTable.GameTable.Known, GameTable.GameTable.Opening,
           RoomService.RoomObject.Is, BackgroundLoop.SeatPairs, BackgroundLoop.Seatable, GameServer.Next,
           Matchmaking.Pairs, Matchmaking.Leftover, MatchmakingService.Expired, MatchmakingService.Waiting;
      MatchmakingService.FewerWaiting(matchmaking.queue, now);
      NotInGame();
      service.Apart();
      expired := matchmaking.ExpireTimeouts(now);
      assert service.rooms.Objects() == old(service.rooms.Objects());
      pairs, made := TryMatch(ids);
      if made < |pairs| { return expired, pairs, made, []; }
      assert pairs[..made] == pairs;
      NotInGame();
      notices := TickAndScan(now);
    }
  }
}
