/** What the invariants of the server say about a whole run. */
module ServerRuns {
  import opened Basics
  import opened Play
  import opened Rooms
  import opened GameServer
  import opened ServerLaws
  import Adapter
  import Grace
  import Ledger
  import Occupancy

  /** After any run: a user is mapped to a room exactly if he is a member of it, so of it alone; each
      room has one white player and at most one black one, and viewers only once both seats are taken. */
  lemma RoomsAgree(users: map<UserId, int>, es: seq<GameServer.Event>, cfg: Setting)
    requires Sound(cfg.opening) && !cfg.opening.over && AllAllowed(users, es, cfg)
    ensures var l := GameServer.Run(users, es, cfg).lobby;
            && (forall u, r :: u in l.userRoom && l.userRoom[u] == r <==> IsMember(l, u, r))
            && (forall r | r in l.rooms :: OneEach(l.rooms[r]))
  {
    hide GameServer.Run, AllAllowed, RoomOk, Lists, Live, Sane, OneEach;
    RunKeeps(users, es, cfg);
    var l := GameServer.Run(users, es, cfg).lobby;
    forall r | r in l.rooms ensures OneEach(l.rooms[r]) { SeatsAre(l.rooms[r]); }
  }

  // ---- Order ----

  /** Rooms are listed in the order in which they were made, and games in the same order. */
  ghost predicate Longer(s: Server, n: Server) {
    s.lobby.order <= n.lobby.order && (s.started == s.lobby.order ==> n.started == n.lobby.order)
  }

  lemma EntryListsLast(s: Server, e: GameServer.Event, cfg: Setting)
    requires Fair(s, cfg.opening) && Sound(cfg.opening) && Allowed(s, e)
    requires e.CreateEvent? || e.MatchEvent?
    ensures Longer(s, GameServer.Next(s, e, cfg))
  {
    hide Live, LobbyOk, Lists, Enter, MatchedRoom;
  }

  lemma NextIsLonger(s: Server, e: GameServer.Event, cfg: Setting)
    requires Fair(s, cfg.opening) && Booked(s) && Sound(cfg.opening) && !cfg.opening.over && Allowed(s, e)
    ensures Longer(s, GameServer.Next(s, e, cfg))
  {
    hide Fair, Booked, TickRooms, ForfeitAll, Create, Match, Join, SubmitMove, Allowed;
    FairLobby(s, cfg.opening);
    match e
    case CreateEvent(_, _) => EntryListsLast(s, e, cfg);
    case MatchEvent(_, _, _) => EntryListsLast(s, e, cfg);
    case JoinEvent(u, r) =>
      JoinKeepsFair(s, u, r, cfg.opening);
      JoinMakesNoRoom(s, u, r, cfg.opening);
    case Submit(u, a, b) => MoveMakesNoRoom(s, u, a, b);
    case TickAll => Grace.TickAllEffect(s, cfg);
    case Grace(now) =>
      Grace.ExpiredAreSeated(s.lobby, now);
      Grace.ForfeitAllEffect(s, Expired(s.lobby, now), cfg.odds, cfg.opening);
    case _ =>
  }

  lemma JoinMakesNoRoom(s: Server, u: UserId, r: RoomId, opening: Game)
    requires Sane(s) && Sound(opening)
    ensures Join(s, u, r, opening).lobby.order == s.lobby.order
  {
  }

  lemma MoveMakesNoRoom(s: Server, u: UserId, a: Position, b: Position)
    requires Sane(s)
    ensures SubmitMove(s, u, a, b).lobby == s.lobby && SubmitMove(s, u, a, b).started == s.started
  {
  }

  /** Over a run the list of rooms grows only at its end, and the games are listed, and so ticked, in the order in
      which their rooms were made. */
  lemma {:induction false} RoomsInOrder(users: map<UserId, int>, es: seq<GameServer.Event>, cfg: Setting, k: nat)
    requires Sound(cfg.opening) && !cfg.opening.over && AllAllowed(users, es, cfg) && k <= |es|
    ensures GameServer.Run(users, es[..k], cfg).lobby.order <= GameServer.Run(users, es, cfg).lobby.order
    ensures GameServer.Run(users, es, cfg).started == GameServer.Run(users, es, cfg).lobby.order
    decreases |es|
  {
    hide Fair, Booked, GameServer.Next, AllAllowed, Allowed;
    if es == [] {
      assert es[..k] == es;
    } else {
      var p := es[..|es| - 1];
      AllowedPrefix(users, es, cfg);
      RunKeeps(users, p, cfg);
      NextIsLonger(GameServer.Run(users, p, cfg), es[|es| - 1], cfg);
      RoomsInOrder(users, p, cfg, if k < |es| then k else k - 1);
      assert k < |es| ==> p[..k] == es[..k];
      assert k == |es| ==> es[..k] == es;
    }
  }

  // ---- Seats ----

  ghost predicate SeatsStay(l: Lobby, n: Lobby) {
    forall r | r in l.rooms :: r in n.rooms && Seated(l.rooms[r]) <= Seated(n.rooms[r])
  }

  lemma PeopleKeepSeats(l: Lobby, n: Lobby)
    requires Grace.SamePeople(l, n)
    ensures SeatsStay(l, n)
  {
  }

  lemma OnwardKeepsSeats(l: Lobby, n: Lobby)
    requires Onward(l, n)
    ensures SeatsStay(l, n)
  {
  }

  lemma ForwardIsOnward(s: Server, n: Server)
    requires Forward(s, n)
    ensures Onward(s.lobby, n.lobby)
  {
  }

  lemma NextKeepsSeats(s: Server, e: GameServer.Event, cfg: Setting)
    requires Fair(s, cfg.opening) && Booked(s) && Sound(cfg.opening) && !cfg.opening.over && Allowed(s, e)
    ensures SeatsStay(s.lobby, GameServer.Next(s, e, cfg).lobby)
  {
    hide Fair, Booked, Forward, TickRooms, ForfeitAll, Create, Match, Join, SubmitMove, Allowed,
         MarkDisconnected, Reconnect, Onward, SeatsStay;
    FairLobby(s, cfg.opening);
    if e.TickAll? {
      Grace.TickAllEffect(s, cfg);
      PeopleKeepSeats(s.lobby, GameServer.Next(s, e, cfg).lobby);
    } else if e.Grace? {
      var q := Expired(s.lobby, e.now);
      Grace.ExpiredAreSeated(s.lobby, e.now);
      Grace.ForfeitAllEffect(s, q, cfg.odds, cfg.opening);
      PeopleKeepSeats(s.lobby, GameServer.Next(s, e, cfg).lobby);
    } else {
      QuietKeeps(s, e, cfg);
      ForwardIsOnward(s, GameServer.Next(s, e, cfg));
      OnwardKeepsSeats(s.lobby, GameServer.Next(s, e, cfg).lobby);
    }
  }

  lemma SeatsStayLong(l: Lobby, m: Lobby, n: Lobby)
    ensures SeatsStay(l, l)
    ensures SeatsStay(l, m) && SeatsStay(m, n) ==> SeatsStay(l, n)
  {
  }

  lemma {:induction false} RunKeepsSeats(users: map<UserId, int>, es: seq<GameServer.Event>, cfg: Setting, k: nat)
    requires Sound(cfg.opening) && !cfg.opening.over && AllAllowed(users, es, cfg) && k <= |es|
    ensures SeatsStay(GameServer.Run(users, es[..k], cfg).lobby, GameServer.Run(users, es, cfg).lobby)
    decreases |es|
  {
    hide Fair, Booked, GameServer.Next, AllAllowed, Allowed, SeatsStay, Fresh;
    if k == |es| {
      assert es[..k] == es;
      SeatsStayLong(GameServer.Run(users, es, cfg).lobby, EMPTY_LOBBY, EMPTY_LOBBY);
    } else {
      var p := es[..|es| - 1];
      AllowedPrefix(users, es, cfg);
      assert p[..k] == es[..k];
      RunKeepsSeats(users, p, cfg, k);
      RunKeeps(users, p, cfg);
      NextKeepsSeats(GameServer.Run(users, p, cfg), es[|es| - 1], cfg);
      var s := GameServer.Run(users, p, cfg);
      SeatsStayLong(GameServer.Run(users, es[..k], cfg).lobby, s.lobby, GameServer.Run(users, es, cfg).lobby);
    }
  }

  lemma RoleStays(l: Lobby, n: Lobby, r: RoomId, u: UserId)
    requires LobbyOk(l) && LobbyOk(n) && SeatsStay(l, n) && IsMember(l, u, r)
    ensures IsPlayer(l, u, r) ==> IsPlayer(n, u, r)
    ensures IsMember(n, u, r) ==> n.rooms[r].members[u].role == l.rooms[r].members[u].role
  {
    hide Lists, Seats, Agree;
    var a, b := l.rooms[r], n.rooms[r];
    RoleTells(a, u);
    assert |Seated(a)| > 0 && Seated(a)[0] == Seated(b)[0];
    JoinedAreMembers(b, 0);
    RoleTells(b, b.joined[0]);
    if |a.joined| > 1 {
      assert Seated(a)[1] == Seated(b)[1];
      JoinedAreMembers(b, 1);
      RoleTells(b, b.joined[1]);
    } else {
      JoinedAreMembers(a, 0);
    }
    if u in b.members { RoleTells(b, u); }
  }

  /** Roles never change: whoever is a member of a room at two moments of a run has the same role at
      both, and whoever has a seat has it for good. */
  lemma RolesStay(users: map<UserId, int>, es: seq<GameServer.Event>, cfg: Setting, k: nat, r: RoomId, u: UserId)
    requires Sound(cfg.opening) && !cfg.opening.over && AllAllowed(users, es, cfg) && k <= |es|
    requires IsMember(GameServer.Run(users, es[..k], cfg).lobby, u, r)
    ensures var l, n := GameServer.Run(users, es[..k], cfg).lobby, GameServer.Run(users, es, cfg).lobby;
            && (IsPlayer(l, u, r) ==> IsPlayer(n, u, r))
            && (IsMember(n, u, r) ==> n.rooms[r].members[u].role == l.rooms[r].members[u].role)
  {
    hide GameServer.Run, Allowed, SeatsStay, LobbyOk, Live;
    forall i | 0 <= i < k ensures Allowed(GameServer.Run(users, es[..k][..i], cfg), es[..k][i]) {
      assert es[..k][..i] == es[..i];
    }
    RunKeeps(users, es[..k], cfg);
    RunKeeps(users, es, cfg);
    RunKeepsSeats(users, es, cfg, k);
    RoleStays(GameServer.Run(users, es[..k], cfg).lobby, GameServer.Run(users, es, cfg).lobby, r, u);
  }

  // ---- Ratings ----

  lemma RecordsApart(s: Server, i: nat, j: nat, u: UserId, opening: Game)
    requires Fair(s, opening) && Booked(s) && i < j < |s.history|
    ensures !Ledger.PlayedIn(s.history[i], u) || !Ledger.PlayedIn(s.history[j], u)
  {
    hide Live, LobbyOk, Sane;
    var a, b := s.history[i], s.history[j];
    assert Recorded(s, a) && Recorded(s, b);
    if Ledger.PlayedIn(a, u) && Ledger.PlayedIn(b, u) {
      assert u in Seated(s.lobby.rooms[a.room]) && u in Seated(s.lobby.rooms[b.room]);
      Ledger.SeatedIsMember(s.lobby, a.room, u);
      Ledger.SeatedIsMember(s.lobby, b.room, u);
    }
  }

  /** After any run of ticks, moves, forfeits and comings and goings: no room and no user is rated twice,
      and every record names the players who sit in the room and the winner of its finished game. */
  lemma RatedOnce(users: map<UserId, int>, es: seq<GameServer.Event>, cfg: Setting)
    requires Sound(cfg.opening) && !cfg.opening.over && AllAllowed(users, es, cfg)
    ensures var s := GameServer.Run(users, es, cfg);
            && (forall i, j | 0 <= i < j < |s.history| ::
                  && s.history[i].room != s.history[j].room
                  && forall u :: !Ledger.PlayedIn(s.history[i], u) || !Ledger.PlayedIn(s.history[j], u))
            && (forall h | h in s.history ::
                  && h.room in s.engines && s.engines[h.room].over && s.engines[h.room].winner == Some(h.winner)
                  && h.room in s.lobby.rooms && Seated(s.lobby.rooms[h.room]) == [h.white, h.black])
            && (forall r :: EloUpdated(s.lobby, r) <==> exists h :: h in s.history && h.room == r)
  {
    hide GameServer.Run, AllAllowed, Fair, Ledger.PlayedIn;
    RunKeeps(users, es, cfg);
    var s := GameServer.Run(users, es, cfg);
    forall i, j, u | 0 <= i < j < |s.history|
      ensures !Ledger.PlayedIn(s.history[i], u) || !Ledger.PlayedIn(s.history[j], u)
    {
      RecordsApart(s, i, j, u, cfg.opening);
    }
    forall h | h in s.history ensures Recorded(s, h) {
    }
    forall r ensures EloUpdated(s.lobby, r) <==> exists h :: h in s.history && h.room == r {
      if EloUpdated(s.lobby, r) {
        assert InHistory(s, r);
        var i :| 0 <= i < |s.history| && s.history[i].room == r;
        assert s.history[i] in s.history;
      }
    }
  }

  /** Every game on the server is one the engine can reach, so all that is proved about the engine's
      runs holds of it. */
  lemma GamesAreRuns(users: map<UserId, int>, es: seq<GameServer.Event>, cfg: Setting, r: RoomId)
    requires Sound(cfg.opening) && Initial(cfg.opening) && AllAllowed(users, es, cfg)
    requires r in GameServer.Run(users, es, cfg).engines
    ensures var g := GameServer.Run(users, es, cfg).engines[r];
            && (exists moves :: AllTimely(moves) && Play.Run(cfg.opening, moves) == g)
            && Sound(g) && Occupancy.Steady(g)
  {
    hide GameServer.Run, AllAllowed, Play.Run, Initial, Sound, Occupancy.Steady;
    NotOver(cfg.opening);
    RunKeeps(users, es, cfg);
    var g := GameServer.Run(users, es, cfg).engines[r];
    assert Live(cfg.opening, g);
    var moves :| AllTimely(moves) && Play.Run(cfg.opening, moves) == g;
    Occupancy.InitialSteady(cfg.opening);
    Occupancy.RunKeeps(cfg.opening, moves);
  }

  lemma NotOver(g: Game)
    requires Initial(g)
    ensures Sound(g) && !g.over
  {
  }

  /** What a user is told who asks for a move: whether he is in a room, whether he has a seat there, and then what the
      game answers to his colour. Everyone in the room is told of a move made, and nobody of any other. */
  lemma AnswersAre(s: Server, u: UserId, a: Position, b: Position, r: RoomId)
    requires Sane(s) && LobbyOk(s.lobby)
    ensures var l, answer := s.lobby, MoveReply(s, u, a, b);
            && (!SomewhereIn(l, u) <==> answer == NotInARoom)
            && (IsMember(l, u, r) && !IsPlayer(l, u, r) ==> answer == ViewersCannotMove)
            && (IsPlayer(l, u, r) && r !in s.engines ==> answer == NoActiveGame)
            && (IsPlayer(l, u, r) && r in s.engines ==>
                  var c := if l.rooms[r].members[u].role.WhiteSeat? then White else Black;
                  && answer == Answered(Adapter.PlayerReply(s.engines[r], c, a, b))
                  && SubmitMove(s, u, a, b) == s.(engines := s.engines[r := Adapter.PlayerMove(s.engines[r], c, a, b)])
                  && MoveTold(l, u, answer)
                     == if answer.reply.Accepted? then l.rooms[r].joined else [])
            && (!IsPlayer(l, u, r) && IsMember(l, u, r) ==> MoveTold(l, u, answer) == [])
            && (!answer.Answered? ==> SubmitMove(s, u, a, b) == s)
  {
    hide Lists, RoomOk, Adapter.PlayerReply, Adapter.PlayerMove;
    UserMapped(s.lobby, u);
    assert u in s.lobby.userRoom && s.lobby.userRoom[u] == r <==> IsMember(s.lobby, u, r);
  }

  /** A move changes the game of the mover's own room only, and there only pieces of his own colour;
      a viewer, or a user in no room, changes nothing. */
  lemma OnlyOwnPieces(s: Server, u: UserId, a: Position, b: Position)
    requires Sane(s)
    ensures var n := SubmitMove(s, u, a, b);
            && n.engines.Keys == s.engines.Keys
            && (n != s ==> u in s.lobby.userRoom && IsPlayer(s.lobby, u, s.lobby.userRoom[u]))
            && forall r | r in s.engines && n.engines[r] != s.engines[r] ::
                 && u in s.lobby.userRoom && s.lobby.userRoom[u] == r && IsPlayer(s.lobby, u, r)
                 && |n.engines[r].pieces| == |s.engines[r].pieces|
                 && forall i | 0 <= i < |s.engines[r].pieces| && n.engines[r].pieces[i] != s.engines[r].pieces[i] ::
                      s.engines[r].pieces[i].color
                      == if s.lobby.rooms[r].members[u].role.WhiteSeat? then White else Black
  {
    hide Adapter.PlayerMove, Adapter.PlayerReply;
    if MoveReply(s, u, a, b).Answered? {
      var r := s.lobby.userRoom[u];
      MoveChanges(s.engines[r], SeatColor(s.lobby.rooms[r].members[u].role), a, b);
    }
  }

  lemma MoveChanges(g: Game, c: Color, a: Position, b: Position)
    requires Sound(g)
    ensures var r := Adapter.PlayerMove(g, c, a, b);
            && |r.pieces| == |g.pieces|
            && forall i | 0 <= i < |g.pieces| && r.pieces[i] != g.pieces[i] :: g.pieces[i].color == c
  {
  }
}
