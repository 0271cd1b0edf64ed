/** One turn of the background loop: pair the queue and seat the pairs, then tick the games, then scan for
    deadlines. A pair that is refused a room ends the turn on the spot: the error is logged, everybody stays
    queued, and neither the clock nor the scan is reached. */
module BackgroundLoop {
  import opened Basics
  import opened Play
  import opened Rooms
  import opened GameServer
  import opened Matchmaking
  import opened ServerLaws
  import MatchingLaws

  /** The server when the pairs have been given rooms, the k-th one the room with the k-th name. */
  function SeatPairs(s: Server, ps: seq<Pair>, ids: seq<RoomId>, opening: Game): (n: Server)
    requires Sane(s) && Sound(opening) && |ids| >= |ps|
    ensures Sane(n)
    decreases |ps|
  {
    if ps == [] then s
    else
      var k := |ps| - 1;
      Match(SeatPairs(s, ps[..k], ids, opening), ps[k].white.userId, ps[k].black.userId, ids[k], opening)
  }

  /** Seating stops after the first `made` pairs: at the first that is refused a room, or at the end. */
  ghost predicate StopsAfter(s: Server, ps: seq<Pair>, ids: seq<RoomId>, opening: Game, made: nat)
    requires Sane(s) && Sound(opening) && |ids| >= |ps|
  {
    && made <= |ps|
    && (forall k | 0 <= k < made :: Seatable(s, ps, ids, opening, k))
    && (made < |ps| ==> !Seatable(s, ps, ids, opening, made))
  }

  ghost predicate Seatable(s: Server, ps: seq<Pair>, ids: seq<RoomId>, opening: Game, k: nat)
    requires Sane(s) && Sound(opening) && |ids| >= |ps| && k < |ps|
  {
    Matchable(SeatPairs(s, ps[..k], ids, opening).lobby, ps[k].white.userId, ps[k].black.userId, ids[k]).None?
  }

  predicate Free(l: Lobby, p: Pair) {
    p.white.userId !in l.userRoom && p.black.userId !in l.userRoom
  }

  /** The names drawn for new rooms are new and differ. */
  ghost predicate NewNames(l: Lobby, ids: seq<RoomId>) {
    && (forall i | 0 <= i < |ids| :: ids[i] !in l.rooms)
    && (forall i, j | 0 <= i < j < |ids| :: ids[i] != ids[j])
  }

  lemma NoneSeated(s: Server, ids: seq<RoomId>, opening: Game)
    requires Sane(s) && Sound(opening)
    ensures SeatPairs(s, [], ids, opening) == s
  {
  }

  lemma OneSeated(s: Server, ps: seq<Pair>, ids: seq<RoomId>, opening: Game, k: nat)
    requires Sane(s) && Sound(opening) && |ids| >= |ps| && k < |ps|
    ensures SeatPairs(s, ps[..k + 1], ids, opening)
            == Match(SeatPairs(s, ps[..k], ids, opening), ps[k].white.userId, ps[k].black.userId, ids[k], opening)
  {
    hide Match;
    assert ps[..k + 1][..k] == ps[..k];
  }

  lemma MatchKeys(l: Lobby, a: UserId, b: UserId, id: RoomId)
    requires Matchable(l, a, b, id).None?
    ensures var n := CreateMatchedRoom(l, a, b, id);
            n.userRoom.Keys == l.userRoom.Keys + {a, b} && n.rooms.Keys == l.rooms.Keys + {id}
  {
    hide MatchedRoom;
  }

  lemma MatchSeats(s: Server, a: UserId, b: UserId, id: RoomId, opening: Game)
    requires Sane(s) && Sound(opening)
    ensures var n := Match(s, a, b, id, opening);
            && n.history == s.history && n.ratings == s.ratings
            && (forall r | r in s.engines :: r in n.engines && n.engines[r] == s.engines[r])
            && s.lobby.userRoom.Keys <= n.lobby.userRoom.Keys
    ensures Matchable(s.lobby, a, b, id).None? ==>
              var n := Match(s, a, b, id, opening);
              && n.lobby.userRoom.Keys == s.lobby.userRoom.Keys + {a, b}
              && n.lobby.rooms.Keys == s.lobby.rooms.Keys + {id}
  {
    hide MatchedRoom, CreateMatchedRoom, Sound;
    if Matchable(s.lobby, a, b, id).None? { MatchKeys(s.lobby, a, b, id); }
  }

  /** Seating touches no game and no rating. */
  lemma {:induction false} SeatingTouchesNoGame(s: Server, ps: seq<Pair>, ids: seq<RoomId>, opening: Game)
    requires Sane(s) && Sound(opening) && |ids| >= |ps|
    ensures var n := SeatPairs(s, ps, ids, opening);
            && n.history == s.history && n.ratings == s.ratings
            && (forall r | r in s.engines :: r in n.engines && n.engines[r] == s.engines[r])
            && s.lobby.userRoom.Keys <= n.lobby.userRoom.Keys
    decreases |ps|
  {
    hide Match, Sane, Sound;
    if ps != [] {
      var k := |ps| - 1;
      SeatingTouchesNoGame(s, ps[..k], ids, opening);
      MatchSeats(SeatPairs(s, ps[..k], ids, opening), ps[k].white.userId, ps[k].black.userId, ids[k], opening);
    }
  }

  /** The users of a list of pairs. */
  function Users(ps: seq<Pair>): set<UserId>
    decreases |ps|
  {
    if ps == [] then {} else Users(ps[..|ps| - 1]) + {ps[|ps| - 1].white.userId, ps[|ps| - 1].black.userId}
  }

  lemma {:induction false} UserIsIn(ps: seq<Pair>, u: UserId) returns (j: nat)
    requires u in Users(ps)
    ensures j < |ps| && (u == ps[j].white.userId || u == ps[j].black.userId)
    decreases |ps|
  {
    j := |ps| - 1;
    if u != ps[j].white.userId && u != ps[j].black.userId { j := UserIsIn(ps[..j], u); }
  }

  lemma {:induction false} FirstIsIn(ps: seq<Pair>, k: nat)
    requires 0 < k <= |ps|
    ensures ps[0].white.userId in Users(ps[..k])
    decreases k
  {
    UsersStep(ps, k - 1);
    if k > 1 { FirstIsIn(ps, k - 1); }
  }

  lemma UsersStep(ps: seq<Pair>, k: nat)
    requires k < |ps|
    ensures Users(ps[..k + 1]) == Users(ps[..k]) + {ps[k].white.userId, ps[k].black.userId}
  {
    assert ps[..k + 1][..k] == ps[..k];
  }

  lemma NobodyYet(ps: seq<Pair>, ids: seq<RoomId>)
    ensures ps[..0] == [] && Users(ps[..0]) == {} && ids[..0] == []
  {
  }

  lemma SeatableIs(s: Server, ps: seq<Pair>, ids: seq<RoomId>, opening: Game, k: nat)
    requires Sane(s) && Sound(opening) && |ids| >= |ps| && k < |ps|
    ensures var l := SeatPairs(s, ps[..k], ids, opening).lobby;
            Seatable(s, ps, ids, opening, k) <==> Matchable(l, ps[k].white.userId, ps[k].black.userId, ids[k]).None?
  {
  }

  lemma RefusedMatch(s: Server, a: UserId, b: UserId, id: RoomId, opening: Game)
    requires Sane(s) && Sound(opening) && Matchable(s.lobby, a, b, id).Some?
    ensures Match(s, a, b, id, opening) == s
  {
  }

  lemma StopsIs(s: Server, ps: seq<Pair>, ids: seq<RoomId>, opening: Game, made: nat)
    requires Sane(s) && Sound(opening) && |ids| >= |ps| >= made
    requires forall k | 0 <= k < made :: Seatable(s, ps, ids, opening, k)
    requires made < |ps| ==> !Seatable(s, ps, ids, opening, made)
    ensures StopsAfter(s, ps, ids, opening, made)
  {
  }

  /** Who is in a room, and which rooms there are, after the first k pairs were seated. */
  lemma {:induction false} SeatedSoFar(s: Server, ps: seq<Pair>, ids: seq<RoomId>, opening: Game, k: nat)
    requires Sane(s) && Sound(opening) && |ids| >= |ps| && k <= |ps|
    requires forall j | 0 <= j < k :: Seatable(s, ps, ids, opening, j)
    ensures var l := SeatPairs(s, ps[..k], ids, opening).lobby;
            && l.userRoom.Keys == s.lobby.userRoom.Keys + Users(ps[..k])
            && l.rooms.Keys == s.lobby.rooms.Keys + set r | r in ids[..k]
    decreases k
  {
    hide Match, Sane, Sound, Matchable, Seatable, Users, SeatPairs;
    NobodyYet(ps, ids);
    if k == 0 {
      NoneSeated(s, ids, opening);
    } else {
      SeatedSoFar(s, ps, ids, opening, k - 1);
      SeatableIs(s, ps, ids, opening, k - 1);
      OneSeated(s, ps, ids, opening, k - 1);
      UsersStep(ps, k - 1);
      var t := SeatPairs(s, ps[..k - 1], ids, opening);
      MatchSeats(t, ps[k - 1].white.userId, ps[k - 1].black.userId, ids[k - 1], opening);
      assert ids[..k] == ids[..k - 1] + [ids[k - 1]];
    }
  }

  /** Nobody is in two pairs, so a pair finds its users as they were before the turn. */
  lemma UsersStillOut(q: seq<QueueEntry>, k: nat)
    requires DistinctUsers(q) && k < |Pairs(q)|
    ensures Pairs(q)[k].white.userId !in Users(Pairs(q)[..k]) && Pairs(q)[k].black.userId !in Users(Pairs(q)[..k])
  {
    hide Pairs, Users;
    var p, before := Pairs(q)[k], Pairs(q)[..k];
    if p.white.userId in Users(before) {
      var j := UserIsIn(before, p.white.userId);
      MatchingLaws.PairsApart(q, j, k);
    }
    if p.black.userId in Users(before) {
      var j := UserIsIn(before, p.black.userId);
      MatchingLaws.PairsApart(q, j, k);
    }
  }

  /** With new names, a pair is refused if and only if one of the two was in a room before the turn: a user
      who queued and then went into a room by hand. */
  lemma RefusedIffSeated(s: Server, q: seq<QueueEntry>, ids: seq<RoomId>, opening: Game, made: nat)
    requires Sane(s) && Sound(opening) && DistinctUsers(q) && |ids| >= |Pairs(q)| && NewNames(s.lobby, ids)
    requires StopsAfter(s, Pairs(q), ids, opening, made)
    ensures forall k | 0 <= k < made :: Free(s.lobby, Pairs(q)[k])
    ensures made < |Pairs(q)| ==> !Free(s.lobby, Pairs(q)[made])
  {
    hide Pairs, Sane, Sound, SeatPairs, Users, Seatable;
    var ps := Pairs(q);
    forall k | 0 <= k < |ps| && k <= made ensures Seatable(s, ps, ids, opening, k) <==> Free(s.lobby, ps[k]) {
      SeatedSoFar(s, ps, ids, opening, k);
      SeatableIs(s, ps, ids, opening, k);
      UsersStillOut(q, k);
    }
  }

  /** The state after a turn's clock, when every pair has got its room. */
  function Ticked(s: Server, ps: seq<Pair>, ids: seq<RoomId>, cfg: Setting): (n: Server)
    requires Sane(s) && Sound(cfg.opening) && |ids| >= |ps|
    ensures Sane(n)
  {
    GameServer.Next(SeatPairs(s, ps, ids, cfg.opening), TickAll, cfg)
  }

  /** The state after one turn in which seating stopped after `made` pairs. */
  function Turn(s: Server, ps: seq<Pair>, ids: seq<RoomId>, made: nat, now: real, cfg: Setting): (n: Server)
    requires Sane(s) && Sound(cfg.opening) && |ids| >= |ps| >= made
    ensures Sane(n)
  {
    if made < |ps| then SeatPairs(s, ps[..made], ids, cfg.opening)
    else GameServer.Next(Ticked(s, ps, ids, cfg), Grace(now), cfg)
  }

  /** A turn stops short if and only if some pair has a user who is in a room already; then no game moves,
      nobody forfeits and nothing is rated. */
  lemma SeatedInQueueStopsTheClock(
      s: Server, q: seq<QueueEntry>, ids: seq<RoomId>, made: nat, now: real, cfg: Setting)
    requires Sane(s) && Sound(cfg.opening) && DistinctUsers(q) && |ids| >= |Pairs(q)| && NewNames(s.lobby, ids)
    requires StopsAfter(s, Pairs(q), ids, cfg.opening, made)
    ensures made < |Pairs(q)| <==> exists p :: p in Pairs(q) && !Free(s.lobby, p)
    ensures made < |Pairs(q)| ==>
              var n := Turn(s, Pairs(q), ids, made, now, cfg);
              && n.history == s.history && n.ratings == s.ratings
              && forall r | r in s.engines :: r in n.engines && n.engines[r] == s.engines[r]
  {
    hide Pairs, Sane, Sound, SeatPairs, Free, GameServer.Next;
    RefusedIffSeated(s, q, ids, cfg.opening, made);
    SeatingTouchesNoGame(s, Pairs(q)[..made], ids, cfg.opening);
  }

  /** And it is the same at every later turn, whoever else arrives: as long as nobody leaves the queue or a
      room, some pair is refused. */
  lemma QueueStaysStuck(
      s: Server, q: seq<QueueEntry>, ids: seq<RoomId>, opening: Game, made: nat, more: seq<QueueEntry>, later: Lobby)
    requires Sane(s) && Sound(opening) && DistinctUsers(q) && |ids| >= |Pairs(q)| && NewNames(s.lobby, ids)
    requires StopsAfter(s, Pairs(q), ids, opening, made) && made < |Pairs(q)|
    requires SeatPairs(s, Pairs(q)[..made], ids, opening).lobby.userRoom.Keys <= later.userRoom.Keys
    ensures exists p :: p in Pairs(q + more) && !Free(later, p)
  {
    hide Pairs, Sane, Sound, SeatPairs, Users, Seatable;
    RefusedIffSeated(s, q, ids, opening, made);
    SeatedSoFar(s, Pairs(q), ids, opening, made);
    if made > 0 { FirstIsIn(Pairs(q), made); }
    MatchingLaws.ArrivalsKeepPairs(q, more);
    assert Pairs(q)[0] in Pairs(q + more) && !Free(later, Pairs(q)[0]);
  }

  // ---- a turn is a run of the server ----

  /** A turn as events of the server: the pairs that get a room, then the clock and the scan, unless a pair
      was refused. */
  function TurnEvents(ps: seq<Pair>, ids: seq<RoomId>, made: nat, now: real): seq<GameServer.Event>
    requires |ids| >= |ps| >= made
  {
    Matches(ps[..made], ids) + if made < |ps| then [] else [TickAll, Grace(now)]
  }

  function Matches(ps: seq<Pair>, ids: seq<RoomId>): (es: seq<GameServer.Event>)
    requires |ids| >= |ps|
    ensures |es| == |ps|
    ensures forall k | 0 <= k < |ps| :: es[k] == MatchEvent(ps[k].white.userId, ps[k].black.userId, ids[k])
  {
    seq(|ps|, k requires 0 <= k < |ps| => MatchEvent(ps[k].white.userId, ps[k].black.userId, ids[k]))
  }

  lemma {:induction false} SeatingIsRun(users: map<UserId, int>, es: seq<GameServer.Event>, ps: seq<Pair>,
        ids: seq<RoomId>, cfg: Setting)
    requires Sound(cfg.opening) && AllAllowed(users, es, cfg) && |ids| >= |ps|
    requires forall p | p in ps :: p.white.userId != p.black.userId
    ensures GameServer.Run(users, es + Matches(ps, ids), cfg)
            == SeatPairs(GameServer.Run(users, es, cfg), ps, ids, cfg.opening)
    ensures AllAllowed(users, es + Matches(ps, ids), cfg)
    decreases |ps|
  {
    hide GameServer.Run, Match, AllAllowed;
    if ps == [] {
      assert es + Matches(ps, ids) == es;
    } else {
      var k := |ps| - 1;
      var e := MatchEvent(ps[k].white.userId, ps[k].black.userId, ids[k]);
      SeatingIsRun(users, es, ps[..k], ids, cfg);
      OneMoreEvent(users, es + Matches(ps[..k], ids), e, cfg);
      assert es + Matches(ps, ids) == es + Matches(ps[..k], ids) + [e];
    }
  }

  /** A turn prolongs a run of the server by its events, so whatever holds after every run holds after every
      number of turns, with arrivals, departures and moves in between. */
  lemma TurnIsRun(users: map<UserId, int>, es: seq<GameServer.Event>, q: seq<QueueEntry>, ids: seq<RoomId>,
        made: nat, now: real, cfg: Setting)
    requires Sound(cfg.opening) && AllAllowed(users, es, cfg)
    requires DistinctUsers(q) && |ids| >= |Pairs(q)| >= made
    ensures var turn := TurnEvents(Pairs(q), ids, made, now);
            && AllAllowed(users, es + turn, cfg)
            && GameServer.Run(users, es + turn, cfg)
               == Turn(GameServer.Run(users, es, cfg), Pairs(q), ids, made, now, cfg)
  {
    hide GameServer.Run, AllAllowed, Pairs, SeatPairs, GameServer.Next;
    var ps := Pairs(q);
    MatchingLaws.PairsFit(q);
    forall p | p in ps[..made] ensures p.white.userId != p.black.userId { assert p in ps; }
    SeatingIsRun(users, es, ps[..made], ids, cfg);
    var seated := es + Matches(ps[..made], ids);
    if made == |ps| {
      assert ps[..made] == ps;
      OneMoreEvent(users, seated, TickAll, cfg);
      OneMoreEvent(users, seated + [TickAll], Grace(now), cfg);
      assert es + TurnEvents(ps, ids, made, now) == seated + [TickAll] + [Grace(now)];
    } else {
      assert es + TurnEvents(ps, ids, made, now) == seated;
    }
  }

  /** A turn keeps the two invariants of the server. */
  lemma TurnKeeps(s: Server, q: seq<QueueEntry>, ids: seq<RoomId>, made: nat, now: real, cfg: Setting)
    requires Fair(s, cfg.opening) && Booked(s) && Sound(cfg.opening) && !cfg.opening.over
    requires DistinctUsers(q) && |ids| >= |Pairs(q)| >= made
    ensures var n := Turn(s, Pairs(q), ids, made, now, cfg); Fair(n, cfg.opening) && Booked(n)
  {
    hide Fair, Booked, Pairs, SeatPairs, GameServer.Next;
    var ps := Pairs(q);
    MatchingLaws.PairsFit(q);
    forall p | p in ps[..made] ensures p.white.userId != p.black.userId { assert p in ps; }
    FairLobby(s, cfg.opening);
    SeatingKeeps(s, ps[..made], ids, cfg);
    if made == |ps| {
      assert ps[..made] == ps;
      FairLobby(SeatPairs(s, ps, ids, cfg.opening), cfg.opening);
      NextKeeps(SeatPairs(s, ps, ids, cfg.opening), TickAll, cfg);
      NextKeeps(Ticked(s, ps, ids, cfg), Grace(now), cfg);
    }
  }

  lemma {:induction false} SeatingKeeps(s: Server, ps: seq<Pair>, ids: seq<RoomId>, cfg: Setting)
    requires Fair(s, cfg.opening) && Booked(s) && Sound(cfg.opening) && !cfg.opening.over && |ids| >= |ps|
    requires forall p | p in ps :: p.white.userId != p.black.userId
    ensures var n := SeatPairs(s, ps, ids, cfg.opening); Fair(n, cfg.opening) && Booked(n)
    decreases |ps|
  {
    hide Fair, Booked, Match;
    FairLobby(s, cfg.opening);
    if ps != [] {
      var k := |ps| - 1;
      SeatingKeeps(s, ps[..k], ids, cfg);
      NextKeeps(SeatPairs(s, ps[..k], ids, cfg.opening),
                MatchEvent(ps[k].white.userId, ps[k].black.userId, ids[k]), cfg);
    }
  }
}
