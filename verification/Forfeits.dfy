/** Theorems about whole runs of the server: who is made to forfeit, and what a late joiner gets. */
module Forfeits {
  import opened Basics
  import opened Play
  import opened Rooms
  import opened GameServer
  import opened ServerLaws
  import opened Grace

  /** The event ends the countdown of a user whose deadline is due. */
  predicate Interrupts(e: GameServer.Event, u: UserId, due: real) {
    match e
    case Drop(v, _) => v == u
    case Return(v) => v == u
    case Grace(now) => due <= now
    case _ => false
  }

  /** Twenty seconds after the loss of the connection. */
  function Due(e: GameServer.Event): real
    requires e.Drop?
  {
    e.now + 20.0
  }

  /** At the k-th event of the run u lost the connection while seated in r; since then u has neither
      come back nor been lost again, and no scan has taken place past the deadline. */
  ghost predicate Away(users: map<UserId, int>, es: seq<GameServer.Event>, cfg: Setting, k: nat, r: RoomId, u: UserId)
    requires Sound(cfg.opening)
  {
    && k < |es| && es[k].Drop? && es[k].user == u
    && IsPlayer(GameServer.Run(users, es[..k], cfg).lobby, u, r)
    && forall j | k < j < |es| :: !Interrupts(es[j], u, Due(es[k]))
  }

  lemma AwayBefore(users: map<UserId, int>, es: seq<GameServer.Event>, cfg: Setting, k: nat, r: RoomId, u: UserId)
    requires Sound(cfg.opening) && es != [] && k < |es| - 1
    ensures Away(users, es, cfg, k, r, u) <==>
            && Away(users, es[..|es| - 1], cfg, k, r, u)
            && !Interrupts(es[|es| - 1], u, Due(es[k]))
  {
    hide GameServer.Run, Interrupts, IsPlayer;
    var n := |es| - 1;
    var p := es[..n];
    assert p[..k] == es[..k];
    if Away(users, p, cfg, k, r, u) && !Interrupts(es[n], u, Due(es[k])) {
      forall j | k < j < |es| ensures !Interrupts(es[j], u, Due(es[k])) {
        if j < n { assert !Interrupts(p[j], u, Due(p[k])); }
      }
    }
    if Away(users, es, cfg, k, r, u) {
      forall j | k < j < n ensures !Interrupts(p[j], u, Due(p[k])) {
        assert p[j] == es[j];
      }
    }
  }

  /** Nobody but a player has a deadline. */
  lemma DeadlineOfPlayer(l: Lobby, r: RoomId, u: UserId)
    requires LobbyOk(l) && Deadline(l, r, u).Some?
    ensures IsPlayer(l, u, r)
  {
  }

  /** How one event changes a deadline. */
  lemma DeadlineStep(s: Server, e: GameServer.Event, cfg: Setting, r: RoomId, u: UserId)
    requires Fair(s, cfg.opening) && Booked(s) && Sound(cfg.opening) && Allowed(s, e)
    ensures var d := Deadline(s.lobby, r, u);
            Deadline(GameServer.Next(s, e, cfg).lobby, r, u)
            == if e.Drop? && e.user == u && IsPlayer(s.lobby, u, r) then Some(Due(e))
               else if d.Some? && Interrupts(e, u, d.value) then None
               else d
  {
    hide Live, LobbyOk, Lists, TickRooms, ForfeitAll, SubmitMove, Deadline, IsPlayer, CreateRoom,
         CreateMatchedRoom, JoinRoom, MarkDisconnected, Reconnect, Booked;
    FairLobby(s, cfg.opening);
    match e
    case CreateEvent(v, id) => EntryKeepsDeadlines(s.lobby, v, v, id, r, u);
    case MatchEvent(a, b, id) => EntryKeepsDeadlines(s.lobby, a, b, id, r, u);
    case JoinEvent(v, q) => EntryKeepsDeadlines(s.lobby, v, v, q, r, u);
    case Drop(v, now) =>
      DisconnectDeadline(s.lobby, v, now, r, u);
      if Deadline(s.lobby, r, u).Some? { DeadlineOfPlayer(s.lobby, r, u); }
    case Return(v) => ReconnectDeadline(s.lobby, v, r, u);
    case Submit(v, a, b) => SubmitKeepsLobby(s, v, a, b);
    case TickAll => TickAllEffect(s, cfg);
    case Grace(now) => GraceDeadlines(s, now, cfg, r, u);
  }

  lemma SubmitKeepsLobby(s: Server, u: UserId, a: Position, b: Position)
    requires Sane(s)
    ensures SubmitMove(s, u, a, b).lobby == s.lobby
  {
  }

  ghost predicate AwayUntil(users: map<UserId, int>, es: seq<GameServer.Event>, cfg: Setting,
                            r: RoomId, u: UserId, due: real)
    requires Sound(cfg.opening)
  {
    exists k: nat :: Away(users, es, cfg, k, r, u) && Due(es[k]) == due
  }

  /** Being away at the end of a run: either the last event is the loss, or u was away already and the
      last event changes nothing about it. */
  lemma AwayLast(users: map<UserId, int>, es: seq<GameServer.Event>, cfg: Setting, r: RoomId, u: UserId, due: real)
    requires Sound(cfg.opening) && es != []
    ensures var p, e := es[..|es| - 1], es[|es| - 1];
            AwayUntil(users, es, cfg, r, u, due) <==>
            || (e.Drop? && e.user == u && IsPlayer(GameServer.Run(users, p, cfg).lobby, u, r) && Due(e) == due)
            || (AwayUntil(users, p, cfg, r, u, due) && !Interrupts(e, u, due))
  {
    hide GameServer.Run, Interrupts, IsPlayer;
    var n := |es| - 1;
    var p, e := es[..n], es[n];
    if AwayUntil(users, es, cfg, r, u, due) {
      var k: nat :| Away(users, es, cfg, k, r, u) && Due(es[k]) == due;
      if k < n { AwayBefore(users, es, cfg, k, r, u); }
    }
    if AwayUntil(users, p, cfg, r, u, due) && !Interrupts(e, u, due) {
      var k: nat :| Away(users, p, cfg, k, r, u) && Due(p[k]) == due;
      AwayBefore(users, es, cfg, k, r, u);
    }
    if e.Drop? && e.user == u && IsPlayer(GameServer.Run(users, p, cfg).lobby, u, r) && Due(e) == due {
      assert Away(users, es, cfg, n, r, u);
    }
  }

  lemma NeverAway(users: map<UserId, int>, cfg: Setting, r: RoomId, u: UserId, due: real)
    requires Sound(cfg.opening)
    ensures !AwayUntil(users, [], cfg, r, u, due)
    ensures Deadline(GameServer.Run(users, [], cfg).lobby, r, u) == None
  {
  }

  /** A deadline stands in the lobby exactly when the history says so. */
  lemma {:induction false} DeadlineHistory(users: map<UserId, int>, es: seq<GameServer.Event>, cfg: Setting,
                                           r: RoomId, u: UserId, due: real)
    requires Sound(cfg.opening) && !cfg.opening.over && AllAllowed(users, es, cfg)
    ensures Deadline(GameServer.Run(users, es, cfg).lobby, r, u) == Some(due) <==> AwayUntil(users, es, cfg, r, u, due)
    decreases |es|
  {
    hide Fair, Booked, GameServer.Next, AwayUntil, AllAllowed, Allowed, Deadline, IsPlayer;
    if es == [] {
      NeverAway(users, cfg, r, u, due);
    } else {
      var p, e := es[..|es| - 1], es[|es| - 1];
      var s := GameServer.Run(users, p, cfg);
      AllowedPrefix(users, es, cfg);
      DeadlineHistory(users, p, cfg, r, u, due);
      RunKeeps(users, p, cfg);
      DeadlineStep(s, e, cfg, r, u);
      AwayLast(users, es, cfg, r, u, due);
      if e.Drop? && e.user == u && IsPlayer(s.lobby, u, r) && Due(e) != due {
        assert Interrupts(e, u, due);
      }
    }
  }

  lemma LapsedIs(l: Lobby, r: RoomId, k: nat, now: real)
    requires LobbyOk(l) && r in l.rooms && k < 2
    ensures SeatLapsed(l.rooms[r], k, now) <==>
            && k < |l.rooms[r].joined|
            && Deadline(l, r, l.rooms[r].joined[k]).Some?
            && Deadline(l, r, l.rooms[r].joined[k]).value <= now
  {
  }

  lemma DueSeat(l: Lobby, r: RoomId, u: UserId)
    requires LobbyOk(l) && r in l.rooms && Deadline(l, r, u).Some?
    ensures exists k :: 0 <= k < 2 && k < |l.rooms[r].joined| && l.rooms[r].joined[k] == u
  {
    DeadlineOfPlayer(l, r, u);
    var q := l.rooms[r].joined;
    assert u in q;
    var k :| 0 <= k < |q| && q[k] == u;
    assert l.rooms[r].members[q[k]].role == RoleAt(k);
  }

  lemma AwayFor(users: map<UserId, int>, es: seq<GameServer.Event>, cfg: Setting, r: RoomId, now: real)
    requires Sound(cfg.opening)
    ensures (exists u, due :: AwayUntil(users, es, cfg, r, u, due) && due <= now) <==>
            exists u, k: nat :: Away(users, es, cfg, k, r, u) && es[k].now + 20.0 <= now
  {
    if u, due :| AwayUntil(users, es, cfg, r, u, due) && due <= now {
      var k: nat :| Away(users, es, cfg, k, r, u) && Due(es[k]) == due;
      assert es[k].now + 20.0 <= now;
    }
    if u, k: nat :| Away(users, es, cfg, k, r, u) && es[k].now + 20.0 <= now {
      assert AwayUntil(users, es, cfg, r, u, Due(es[k]));
    }
  }

  /** A grace scan ends a running game if and only if some player of it lost the connection at least
      20 seconds before, and since then has neither come back nor been lost again, nor has there been a
      scan past the deadline. */
  lemma ForfeitIffGraceRanOut(users: map<UserId, int>, es: seq<GameServer.Event>, cfg: Setting, r: RoomId, now: real)
    requires Sound(cfg.opening) && !cfg.opening.over && AllAllowed(users, es, cfg)
    requires r in GameServer.Run(users, es, cfg).engines && !GameServer.Run(users, es, cfg).engines[r].over
    ensures var n := GameServer.Run(users, es + [GameServer.Grace(now)], cfg);
            && r in n.engines
            && (n.engines[r].over <==>
                  exists u, k: nat :: Away(users, es, cfg, k, r, u) && es[k].now + 20.0 <= now)
  {
    hide Live, LobbyOk, Lists, Booked, GameServer.Next, Away, AwayUntil, AllAllowed, Deadline, SeatLapsed, Forfeit,
         SamePeople;
    AwayFor(users, es, cfg, r, now);
    var s := GameServer.Run(users, es, cfg);
    var all := es + [GameServer.Grace(now)];
    assert all[..|all| - 1] == es;
    RunKeeps(users, es, cfg);
    GraceEffect(s, now, cfg, r);
    ForfeitEnds(s.engines[r]);
    LapsedIs(s.lobby, r, 0, now);
    LapsedIs(s.lobby, r, 1, now);
    if SeatLapsed(s.lobby.rooms[r], 0, now) {
      var u := s.lobby.rooms[r].joined[0];
      DeadlineHistory(users, es, cfg, r, u, Deadline(s.lobby, r, u).value);
    } else if SeatLapsed(s.lobby.rooms[r], 1, now) {
      var u := s.lobby.rooms[r].joined[1];
      DeadlineHistory(users, es, cfg, r, u, Deadline(s.lobby, r, u).value);
    } else {
      forall u, due ensures !(AwayUntil(users, es, cfg, r, u, due) && due <= now) {
        DeadlineHistory(users, es, cfg, r, u, due);
        if Deadline(s.lobby, r, u) == Some(due) { DueSeat(s.lobby, r, u); }
      }
    }
  }

  lemma ForfeitEnds(g: Game)
    requires Sound(g)
    ensures forall c :: Forfeit(g, c).over
  {
  }

  lemma FreeStays(l: Lobby, n: Lobby, u: UserId)
    requires LobbyOk(l) && LobbyOk(n) && SamePeople(l, n)
    ensures u in n.userRoom ==> u in l.userRoom
  {
    hide Lists, RoomOk;
    if u in n.userRoom {
      assert IsMember(n, u, n.userRoom[u]);
      assert IsMember(l, u, n.userRoom[u]);
    }
  }

  lemma LoneWhiteGivesUp(s: Server, cfg: Setting, r: RoomId, now: real)
    requires Fair(s, cfg.opening) && Booked(s) && Sound(cfg.opening) && !cfg.opening.over
    requires r in s.engines && !s.engines[r].over && SeatLapsed(s.lobby.rooms[r], 0, now)
    ensures var t := GameServer.Next(s, GameServer.Grace(now), cfg);
            && Fair(t, cfg.opening) && Booked(t) && SamePeople(s.lobby, t.lobby) && t.ratings.Keys == s.ratings.Keys
            && r in t.engines && t.engines[r].over && t.engines[r].winner == Some(Black)
  {
    hide Live, LobbyOk, Lists, Booked, SeatLapsed, GameServer.Next, SamePeople;
    NextKeeps(s, GameServer.Grace(now), cfg);
    GraceEffect(s, now, cfg, r);
  }

  lemma TakesBlackSeat(t: Server, cfg: Setting, r: RoomId, w: UserId, b: UserId)
    requires Fair(t, cfg.opening) && Booked(t) && Sound(cfg.opening) && !cfg.opening.over && r in t.engines
    requires t.lobby.rooms[r].joined == [w] && b !in t.lobby.userRoom && w in t.ratings && b in t.ratings
    ensures var n := GameServer.Next(t, JoinEvent(b, r), cfg);
            && Fair(n, cfg.opening) && Booked(n) && n.engines == t.engines && n.ratings == t.ratings
            && r in n.lobby.rooms && n.lobby.rooms[r].joined == [w, b] && Contested(n, r)
  {
    hide Live, Lists, Booked, Seats, Forward, RoomOk;
    NextKeeps(t, JoinEvent(b, r), cfg);
    JoinKeepsFair(t, b, r, cfg.opening);
    JoinForward(t, b, r, cfg.opening);
    assert !IsMember(t.lobby, b, r);
  }

  lemma JoinForward(t: Server, b: UserId, r: RoomId, opening: Game)
    requires Sane(t) && Sound(opening) && Forward(t, Join(t, b, r, opening))
    ensures Join(t, b, r, opening).ratings == t.ratings
  {
  }

  /** The history holds a game of the two users in the room, won by the colour. */
  ghost predicate RatedFor(n: Server, r: RoomId, w: UserId, b: UserId, c: Color) {
    exists h :: h in n.history && h.room == r && h.white == w && h.black == b && h.winner == c
  }

  lemma IsRecorded(n: Server, r: RoomId, w: UserId, b: UserId)
    requires Booked(n) && EloUpdated(n.lobby, r) && n.lobby.rooms[r].joined == [w, b]
    ensures r in n.engines && n.engines[r].winner.Some? && RatedFor(n, r, w, b, n.engines[r].winner.value)
  {
    assert InHistory(n, r);
    var i :| 0 <= i < |n.history| && n.history[i].room == r;
    assert Recorded(n, n.history[i]);
  }

  lemma RecordedIsOver(n: Server, r: RoomId, w: UserId, b: UserId, c: Color)
    requires Booked(n) && RatedFor(n, r, w, b, c)
    ensures r in n.engines && n.engines[r].over
  {
    var h :| h in n.history && h.room == r;
    var i :| 0 <= i < |n.history| && n.history[i] == h;
    assert Recorded(n, n.history[i]);
  }

  lemma StaysOver(opening: Game, g: Game)
    requires Live(opening, g)
    ensures g.over ==> Tick(g, TICK_MS) == g
  {
  }

  /** When the other seat is taken at last. The next tick rates the game as it stood before, with the newcomer
      as one of its two players, if and only if it was over by then, however it had ended and whoever had won. */
  lemma RatedIffOverBefore(s: Server, cfg: Setting, r: RoomId, w: UserId, b: UserId)
    requires Fair(s, cfg.opening) && Booked(s) && Sound(cfg.opening) && !cfg.opening.over && r in s.engines
    requires s.lobby.rooms[r].joined == [w] && b !in s.lobby.userRoom && w in s.ratings && b in s.ratings
    ensures var n := GameServer.Next(GameServer.Next(s, JoinEvent(b, r), cfg), TickAll, cfg);
            && r in n.engines
            && (s.engines[r].over <==>
                  && n.engines[r] == s.engines[r]
                  && s.engines[r].winner.Some? && RatedFor(n, r, w, b, s.engines[r].winner.value))
  {
    hide Live, LobbyOk, Lists, Booked, GameServer.Next, Tick, Contested, EloUpdated, RatedFor;
    TakesBlackSeat(s, cfg, r, w, b);
    var u := GameServer.Next(s, JoinEvent(b, r), cfg);
    var n := GameServer.Next(u, TickAll, cfg);
    TickAllEffect(u, cfg);
    TickKeeps(u, cfg);
    StaysOver(cfg.opening, u.engines[r]);
    if s.engines[r].over {
      IsRecorded(n, r, w, b);
    } else if s.engines[r].winner.Some? && RatedFor(n, r, w, b, s.engines[r].winner.value) {
      RecordedIsOver(n, r, w, b, s.engines[r].winner.value);
    }
  }

  /** A game given up by a player who waited alone: whoever takes the other seat afterwards is recorded as
      its winner at the next tick, without having made a move. */
  lemma LateJoinerWins(s: Server, cfg: Setting, r: RoomId, b: UserId, now: real)
    requires Fair(s, cfg.opening) && Booked(s) && Sound(cfg.opening) && !cfg.opening.over
    requires r in s.engines && !s.engines[r].over
    requires |s.lobby.rooms[r].joined| == 1 && SeatLapsed(s.lobby.rooms[r], 0, now)
    requires b !in s.lobby.userRoom && b in s.ratings && s.lobby.rooms[r].joined[0] in s.ratings
    ensures var t := GameServer.Next(s, GameServer.Grace(now), cfg);
            var n := GameServer.Next(GameServer.Next(t, JoinEvent(b, r), cfg), TickAll, cfg);
            RatedFor(n, r, s.lobby.rooms[r].joined[0], b, Black)
  {
    hide Live, LobbyOk, Lists, Booked, SeatLapsed, GameServer.Next, RatedFor;
    var w := s.lobby.rooms[r].joined[0];
    LoneWhiteGivesUp(s, cfg, r, now);
    var t := GameServer.Next(s, GameServer.Grace(now), cfg);
    FreeStays(s.lobby, t.lobby, b);
    assert t.lobby.rooms[r].joined == [w];
    RatedIffOverBefore(t, cfg, r, w, b);
  }

  lemma TickKeeps(s: Server, cfg: Setting)
    requires Fair(s, cfg.opening) && Booked(s) && Sound(cfg.opening) && !cfg.opening.over
    ensures Booked(GameServer.Next(s, TickAll, cfg))
  {
    hide Fair, Booked, GameServer.Next;
    NextKeeps(s, TickAll, cfg);
  }
}
