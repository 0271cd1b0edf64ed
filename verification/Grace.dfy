/** Clock ticks and the grace scan, room by room; and when exactly a player is made to forfeit. */
module Grace {
  import opened Basics
  import opened Play
  import opened Rooms
  import opened GameServer
  import opened ServerLaws

  // ---- What does not move ----

  /** The same rooms with the same people in the same order. */
  ghost predicate SamePeople(l: Lobby, n: Lobby) {
    && n.rooms.Keys == l.rooms.Keys && n.order == l.order
    && forall r | r in l.rooms ::
         && n.rooms[r].joined == l.rooms[r].joined
         && n.rooms[r].members.Keys == l.rooms[r].members.Keys
         && (l.rooms[r].eloUpdated ==> n.rooms[r].eloUpdated)
  }

  lemma ClearKeepsPeople(l: Lobby, r: RoomId, u: UserId)
    ensures SamePeople(l, ClearDeadline(l, r, u))
  {
  }

  /** Which side a user plays is told by the first two to enter the room. */
  lemma SideTold(l: Lobby, r: RoomId, u: UserId)
    requires LobbyOk(l) && r in l.rooms
    ensures var q := l.rooms[r].joined;
            SideOf(l, r, u) == if u == q[0] then Some(White) else if |q| > 1 && u == q[1] then Some(Black) else None
  {
    hide Holder, Seats;
    HolderIs(l, r);
  }

  lemma SideKept(l: Lobby, n: Lobby, r: RoomId, u: UserId)
    requires LobbyOk(l) && LobbyOk(n) && r in l.rooms && SamePeople(l, n)
    ensures SideOf(n, r, u) == SideOf(l, r, u)
  {
    hide LobbyOk, SideOf;
    SideTold(l, r, u);
    SideTold(n, r, u);
  }

  lemma ApplyEloKeepsRest(s: Server, r: RoomId, odds: Odds)
    requires Sane(s)
    ensures var n := ApplyElo(s, r, odds);
            && n.engines == s.engines && SamePeople(s.lobby, n.lobby) && n.ratings.Keys == s.ratings.Keys
            && (forall q, u :: Deadline(n.lobby, q, u) == Deadline(s.lobby, q, u))
            && (Ratable(s, r) && r in s.lobby.rooms ==> EloUpdated(n.lobby, r))
  {
  }

  // ---- Ticks ----

  /** Two registered users have taken the seats. */
  ghost predicate Contested(s: Server, r: RoomId) {
    && r in s.lobby.rooms && |Seated(s.lobby.rooms[r])| == 2
    && Seated(s.lobby.rooms[r])[0] in s.ratings && Seated(s.lobby.rooms[r])[1] in s.ratings
  }

  lemma ContestedIs(s: Server, r: RoomId, opening: Game)
    requires Fair(s, opening) && r in s.engines && s.engines[r].over && Contested(s, r)
    ensures Ratable(s, r) <==> !EloUpdated(s.lobby, r)
  {
    hide Holder, Seats;
    HolderIs(s.lobby, r);
    LiveParts(opening, s.engines[r]);
  }

  lemma ContestedKept(s: Server, n: Server, r: RoomId)
    requires SamePeople(s.lobby, n.lobby) && n.ratings.Keys == s.ratings.Keys
    ensures Contested(n, r) <==> Contested(s, r)
  {
  }

  lemma TickRoomEffect(s: Server, r: RoomId, odds: Odds, opening: Game)
    requires Fair(s, opening) && r in s.engines
    ensures var n := TickRoom(s, r, odds);
            && n.engines == s.engines[r := Tick(s.engines[r], TICK_MS)]
            && SamePeople(s.lobby, n.lobby) && n.ratings.Keys == s.ratings.Keys
            && (n.engines[r].over && Contested(s, r) ==> EloUpdated(n.lobby, r))
            && (forall q, u :: Deadline(n.lobby, q, u) == Deadline(s.lobby, q, u))
  {
    hide Live, LobbyOk, Lists, Tick, ApplyElo, Deadline, Ratable, Contested, SamePeople, Forward;
    PeopleStay(s.lobby, s.lobby, s.lobby);
    TickLives(opening, s.engines[r]);
    EngineKeepsFair(s, r, Tick(s.engines[r], TICK_MS), opening);
    var t := s.(engines := s.engines[r := Tick(s.engines[r], TICK_MS)]);
    ApplyEloKeepsRest(t, r, odds);
    ContestedKept(s, t, r);
    if t.engines[r].over && Contested(t, r) { ContestedIs(t, r, opening); }
  }

  lemma PeopleStay(l: Lobby, m: Lobby, n: Lobby)
    ensures SamePeople(l, m) && SamePeople(m, n) ==> SamePeople(l, n)
    ensures SamePeople(m, n) ==> forall r | EloUpdated(m, r) :: EloUpdated(n, r)
    ensures SamePeople(l, l)
  {
  }

  lemma {:induction false} TickRoomsEffect(s: Server, q: seq<RoomId>, odds: Odds, opening: Game)
    requires Fair(s, opening) && Booked(s) && (forall r | r in q :: r in s.engines)
    requires forall i, j | 0 <= i < j < |q| :: q[i] != q[j]
    ensures var n := TickRooms(s, q, odds);
            && SamePeople(s.lobby, n.lobby) && n.ratings.Keys == s.ratings.Keys && n.engines.Keys == s.engines.Keys
            && (forall r | r in s.engines ::
                  n.engines[r] == if r in q then Tick(s.engines[r], TICK_MS) else s.engines[r])
            && (forall r | r in q && n.engines[r].over && Contested(s, r) :: EloUpdated(n.lobby, r))
            && (forall r, u :: Deadline(n.lobby, r, u) == Deadline(s.lobby, r, u))
    decreases |q|
  {
    hide Fair, Booked, Tick, TickRoom, Deadline, Contested, SamePeople, EloUpdated, Sane;
    FairLobby(s, opening);
    if q == [] {
      PeopleStay(s.lobby, s.lobby, s.lobby);
    } else {
      var t := TickRoom(s, q[0], odds);
      TickRoomKeeps(s, q[0], odds, opening);
      TickRoomEffect(s, q[0], odds, opening);
      TickRoomsEffect(t, q[1..], odds, opening);
      PeopleStay(s.lobby, t.lobby, TickRooms(t, q[1..], odds).lobby);
      assert q == [q[0]] + q[1..];
      forall r ensures Contested(t, r) <==> Contested(s, r) { ContestedKept(s, t, r); }
    }
  }

  /** A tick of the server moves every game on by 50 milliseconds and nothing else, and then every
      finished game between two registered users is rated. */
  lemma TickAllEffect(s: Server, cfg: Setting)
    requires Fair(s, cfg.opening) && Booked(s) && Sound(cfg.opening)
    ensures var n := GameServer.Next(s, TickAll, cfg);
            && SamePeople(s.lobby, n.lobby) && n.ratings.Keys == s.ratings.Keys && n.engines.Keys == s.engines.Keys
            && (forall r | r in s.engines :: n.engines[r] == Tick(s.engines[r], 50))
            && (forall r | r in s.engines && n.engines[r].over && Contested(s, r) :: EloUpdated(n.lobby, r))
            && (forall r, u :: Deadline(n.lobby, r, u) == Deadline(s.lobby, r, u))
  {
    hide Live, LobbyOk, Tick, TickRooms, Deadline, Contested, Sane;
    TickRoomsEffect(s, s.started, cfg.odds, cfg.opening);
  }

  // ---- The grace scan ----

  lemma ForceForfeitEffect(s: Server, r: RoomId, u: UserId, odds: Odds)
    requires Sane(s) && r in s.engines && SideOf(s.lobby, r, u).Some?
    ensures var n := ForceForfeit(s, r, u, odds);
            && n.engines == s.engines[r := Forfeit(s.engines[r], SideOf(s.lobby, r, u).value.Other())]
            && SamePeople(s.lobby, n.lobby) && n.ratings.Keys == s.ratings.Keys
            && (forall q, v :: Deadline(n.lobby, q, v) == Deadline(s.lobby, q, v))
  {
    hide ApplyElo, Deadline, SideOf;
    if !s.engines[r].over {
      var g := Forfeit(s.engines[r], SideOf(s.lobby, r, u).value.Other());
      ApplyEloKeepsRest(s.(engines := s.engines[r := g]), r, odds);
    } else {
      assert s.engines[r := s.engines[r]] == s.engines;
    }
  }

  /** Everyone on the list has a seat. */
  ghost predicate AllSeated(l: Lobby, q: seq<(RoomId, UserId)>) {
    forall x | x in q :: x.0 in l.rooms && SideOf(l, x.0, x.1).Some?
  }

  /** What the list does to one game. */
  function ForfeitOutcome(l: Lobby, q: seq<(RoomId, UserId)>, r: RoomId, g: Game): Game
    requires Sound(g)
  {
    var u := FirstIn(q, r);
    if u.Some? && SideOf(l, r, u.value).Some? then Forfeit(g, SideOf(l, r, u.value).value.Other()) else g
  }

  lemma OutcomeStep(l: Lobby, q: seq<(RoomId, UserId)>, r: RoomId, g: Game)
    requires Sound(g) && q != [] && SideOf(l, q[0].0, q[0].1).Some?
    ensures ForfeitOutcome(l, q, r, g)
            == if q[0].0 == r then ForfeitOutcome(l, q[1..], r, Forfeit(g, SideOf(l, r, q[0].1).value.Other()))
               else ForfeitOutcome(l, q[1..], r, g)
  {
  }

  /** Made to forfeit, a game between two registered users is rated at once. */
  lemma ForfeitRates(s: Server, r: RoomId, u: UserId, odds: Odds, opening: Game)
    requires Fair(s, opening) && Booked(s) && r in s.engines && SideOf(s.lobby, r, u).Some?
    requires !s.engines[r].over && Contested(s, r)
    ensures EloUpdated(ForceForfeit(s, r, u, odds).lobby, r)
  {
    hide Live, LobbyOk, Lists, Forfeit, ApplyElo, Deadline, Ratable, SideOf, Contested, Forward, SamePeople;
    var c := SideOf(s.lobby, r, u).value.Other();
    ForfeitLives(opening, s.engines[r], c);
    EngineKeepsFair(s, r, Forfeit(s.engines[r], c), opening);
    var t := s.(engines := s.engines[r := Forfeit(s.engines[r], c)]);
    ApplyEloKeepsRest(t, r, odds);
    PeopleStay(s.lobby, t.lobby, ApplyElo(t, r, odds).lobby);
    ContestedKept(s, t, r);
    ContestedIs(t, r, opening);
    ContestedOpen(t, r);
  }

  lemma ContestedOpen(s: Server, r: RoomId)
    requires Contested(s, r)
    ensures r in s.lobby.rooms
  {
  }

  lemma OneForfeit(s: Server, x: (RoomId, UserId), q: seq<(RoomId, UserId)>, odds: Odds, opening: Game)
    requires Fair(s, opening) && Booked(s) && AllSeated(s.lobby, [x] + q)
    ensures var t := Clear(ForceForfeit(s, x.0, x.1, odds), x.0, x.1);
            && Fair(t, opening) && Booked(t)
            && SamePeople(s.lobby, t.lobby) && t.ratings.Keys == s.ratings.Keys && x.0 in s.engines
            && t.engines == s.engines[x.0 := Forfeit(s.engines[x.0], SideOf(s.lobby, x.0, x.1).value.Other())]
            && AllSeated(t.lobby, q)
            && (forall r, u | r in s.lobby.rooms :: SideOf(t.lobby, r, u) == SideOf(s.lobby, r, u))
            && (forall r, u :: Deadline(t.lobby, r, u) == if (r, u) == x then None else Deadline(s.lobby, r, u))
            && (!s.engines[x.0].over && Contested(s, x.0) ==> EloUpdated(t.lobby, x.0))
  {
    hide Live, LobbyOk, Lists, Forfeit, ForceForfeit, Deadline, SideOf, Booked, Forward, ClearDeadline, Contested;
    var m := ForceForfeit(s, x.0, x.1, odds);
    var t := Clear(m, x.0, x.1);
    assert x in [x] + q;
    ForceForfeitEffect(s, x.0, x.1, odds);
    ForceForfeitKeeps(s, x.0, x.1, odds, opening);
    ClearKeepsFair(m, x.0, x.1, opening);
    ForwardKeepsBooked(m, t);
    ClearKeepsPeople(m.lobby, x.0, x.1);
    if !s.engines[x.0].over && Contested(s, x.0) {
      ForfeitRates(s, x.0, x.1, odds, opening);
      PeopleStay(s.lobby, m.lobby, t.lobby);
    }
    forall r, u | r in s.lobby.rooms ensures SideOf(t.lobby, r, u) == SideOf(s.lobby, r, u) {
      SideKept(s.lobby, t.lobby, r, u);
    }
    forall r, u ensures Deadline(t.lobby, r, u) == if (r, u) == x then None else Deadline(s.lobby, r, u) {
      ClearsDeadline(m.lobby, x.0, x.1, r, u);
    }
    forall y | y in q ensures y.0 in t.lobby.rooms && SideOf(t.lobby, y.0, y.1).Some? {
      assert y in [x] + q;
    }
  }

  lemma SameOutcome(l: Lobby, n: Lobby, q: seq<(RoomId, UserId)>, r: RoomId, g: Game)
    requires Sound(g) && forall u :: SideOf(n, r, u) == SideOf(l, r, u)
    ensures ForfeitOutcome(n, q, r, g) == ForfeitOutcome(l, q, r, g)
  {
  }

  lemma {:induction false} ForfeitAllEngine(s: Server, q: seq<(RoomId, UserId)>, r: RoomId, odds: Odds, opening: Game)
    requires Fair(s, opening) && Booked(s) && AllSeated(s.lobby, q) && r in s.engines
    ensures var n := ForfeitAll(s, q, odds);
            && r in n.engines && n.engines[r] == ForfeitOutcome(s.lobby, q, r, s.engines[r])
            && SamePeople(s.lobby, n.lobby) && n.ratings.Keys == s.ratings.Keys
            && (!s.engines[r].over && n.engines[r].over && Contested(s, r) ==> EloUpdated(n.lobby, r))
            && forall v, u :: Deadline(n.lobby, v, u) == if (v, u) in q then None else Deadline(s.lobby, v, u)
    decreases |q|
  {
    hide Live, LobbyOk, Lists, Forfeit, ForceForfeit, Deadline, SideOf, Booked, ForfeitOutcome, Clear, AllSeated,
         Contested, EloUpdated;
    if q == [] {
      NoOutcome(s.lobby, r, s.engines[r]);
    } else {
      assert q == [q[0]] + q[1..];
      var t := Clear(ForceForfeit(s, q[0].0, q[0].1, odds), q[0].0, q[0].1);
      OneForfeit(s, q[0], q[1..], odds, opening);
      ForfeitAllEngine(t, q[1..], r, odds, opening);
      PeopleStay(s.lobby, t.lobby, ForfeitAll(t, q[1..], odds).lobby);
      ContestedKept(s, t, r);
      SameOutcome(s.lobby, t.lobby, q[1..], r, t.engines[r]);
      SeatedFirst(s.lobby, q);
      OutcomeStep(s.lobby, q, r, s.engines[r]);
    }
  }

  lemma SeatedFirst(l: Lobby, q: seq<(RoomId, UserId)>)
    requires AllSeated(l, q) && q != []
    ensures SideOf(l, q[0].0, q[0].1).Some?
  {
  }

  lemma NoOutcome(l: Lobby, r: RoomId, g: Game)
    requires Sound(g)
    ensures ForfeitOutcome(l, [], r, g) == g
  {
  }

  lemma ExpiredAreSeated(l: Lobby, now: real)
    requires LobbyOk(l)
    ensures AllSeated(l, Expired(l, now))
  {
    hide Expired, SideOf, Seats;
    forall x | x in Expired(l, now) ensures x.0 in l.rooms && SideOf(l, x.0, x.1).Some? {
      ExpiredIs(l, now, x.0, x.1);
      SideTold(l, x.0, x.1);
      assert RoomOk(l.rooms[x.0]);
      RoleTells(l.rooms[x.0], x.1);
    }
  }

  /** One grace scan, room by room: if white is overdue black wins, whether or not black is overdue too;
      if only black is, white wins; a game that is over stays as it is. A game between two registered
      users that is given up is rated in the same scan. */
  lemma GraceEffect(s: Server, now: real, cfg: Setting, r: RoomId)
    requires Fair(s, cfg.opening) && Booked(s) && Sound(cfg.opening) && r in s.engines
    ensures var n := GameServer.Next(s, GameServer.Grace(now), cfg);
            && r in n.engines
            && n.engines[r] == (if SeatLapsed(s.lobby.rooms[r], 0, now) then Forfeit(s.engines[r], Black)
                                else if SeatLapsed(s.lobby.rooms[r], 1, now) then Forfeit(s.engines[r], White)
                                else s.engines[r])
            && SamePeople(s.lobby, n.lobby) && n.ratings.Keys == s.ratings.Keys
            && (!s.engines[r].over && n.engines[r].over && Contested(s, r) ==> EloUpdated(n.lobby, r))
  {
    hide Live, LobbyOk, Lists, Forfeit, ForfeitAll, Deadline, Booked, Expired, AllSeated, SideOf, FirstIn,
         SeatLapsed, Sane, Contested, EloUpdated;
    var q := Expired(s.lobby, now);
    ExpiredAreSeated(s.lobby, now);
    ForfeitAllEngine(s, q, r, cfg.odds, cfg.opening);
    FirstExpired(s.lobby, r, now);
    JoinedSome(s.lobby, r);
    SideTold(s.lobby, r, s.lobby.rooms[r].joined[0]);
    if SeatLapsed(s.lobby.rooms[r], 1, now) {
      LapsedIsSeated(s.lobby, r, now);
      SideTold(s.lobby, r, s.lobby.rooms[r].joined[1]);
    }
  }

  lemma JoinedSome(l: Lobby, r: RoomId)
    requires LobbyOk(l) && r in l.rooms
    ensures l.rooms[r].joined != [] && RoomOk(l.rooms[r])
  {
  }

  lemma LapsedIsSeated(l: Lobby, r: RoomId, now: real)
    requires LobbyOk(l) && r in l.rooms && SeatLapsed(l.rooms[r], 1, now)
    ensures |l.rooms[r].joined| > 1 && l.rooms[r].joined[1] != l.rooms[r].joined[0]
  {
  }

  lemma GraceDeadlines(s: Server, now: real, cfg: Setting, r: RoomId, u: UserId)
    requires Fair(s, cfg.opening) && Booked(s) && Sound(cfg.opening)
    ensures var d := Deadline(s.lobby, r, u);
            Deadline(GameServer.Next(s, GameServer.Grace(now), cfg).lobby, r, u)
            == if d.Some? && d.value <= now then None else d
  {
    hide Live, LobbyOk, Lists, ForfeitAll, Deadline, Booked, Expired, AllSeated, Sane;
    var q := Expired(s.lobby, now);
    ExpiredAreSeated(s.lobby, now);
    ExpiredIs(s.lobby, now, r, u);
    ForfeitAllEffect(s, q, cfg.odds, cfg.opening);
  }

  lemma ForfeitAllEffect(s: Server, q: seq<(RoomId, UserId)>, odds: Odds, opening: Game)
    requires Fair(s, opening) && Booked(s) && AllSeated(s.lobby, q)
    ensures SamePeople(s.lobby, ForfeitAll(s, q, odds).lobby)
    ensures forall v, u :: Deadline(ForfeitAll(s, q, odds).lobby, v, u)
                           == if (v, u) in q then None else Deadline(s.lobby, v, u)
  {
    hide Live, LobbyOk, Lists, ForfeitAll, Deadline, Booked, AllSeated, Sane;
    if q == [] {
      Nothing(s, odds);
    } else {
      FirstRoomOpen(s, q, opening);
      ForfeitAllEngine(s, q, q[0].0, odds, opening);
    }
  }

  lemma Nothing(s: Server, odds: Odds)
    requires Sane(s)
    ensures ForfeitAll(s, [], odds) == s
  {
  }

  lemma FirstRoomOpen(s: Server, q: seq<(RoomId, UserId)>, opening: Game)
    requires Fair(s, opening) && AllSeated(s.lobby, q) && q != []
    ensures q[0].0 in s.engines
  {
  }
}
