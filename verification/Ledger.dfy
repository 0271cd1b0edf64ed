/** Where the ratings come from: nobody is rated in two games, so every rating is either the one the
    user came with or the outcome of one recorded game. */
module Ledger {
  import opened Basics
  import opened Play
  import opened Rooms
  import opened GameServer
  import opened ServerLaws
  import Elo

  ghost predicate PlayedIn(h: GameResult, u: UserId) {
    h.white == u || h.black == u
  }

  ghost predicate EntryOk(s: Server, h: GameResult, users: map<UserId, int>, odds: Odds) {
    && h.white in users && h.black in users && h.white != h.black
    && h.whiteBefore == users[h.white] && h.blackBefore == users[h.black]
    && (h.whiteAfter, h.blackAfter) == NewRatings(h.winner, h.whiteBefore, h.blackBefore, odds)
    && h.white in s.ratings && s.ratings[h.white] == h.whiteAfter
    && h.black in s.ratings && s.ratings[h.black] == h.blackAfter
  }

  ghost predicate Unrated(s: Server, u: UserId) {
    forall i | 0 <= i < |s.history| :: !PlayedIn(s.history[i], u)
  }

  ghost predicate Balanced(s: Server, users: map<UserId, int>, odds: Odds) {
    && s.ratings.Keys == users.Keys
    && (forall i | 0 <= i < |s.history| :: EntryOk(s, s.history[i], users, odds))
    && (forall u | u in users && Unrated(s, u) :: s.ratings[u] == users[u])
  }

  /** Someone seated in a room that is not rated yet is in no record. */
  lemma SeatedElsewhere(s: Server, r: RoomId, u: UserId, opening: Game)
    requires Fair(s, opening) && Booked(s) && r in s.lobby.rooms && u in Seated(s.lobby.rooms[r])
    requires !EloUpdated(s.lobby, r)
    ensures Unrated(s, u)
  {
    hide Live, Sane, Seats;
    SeatedIsMember(s.lobby, r, u);
    forall i | 0 <= i < |s.history| ensures !PlayedIn(s.history[i], u) {
      var h := s.history[i];
      assert Recorded(s, h);
      if PlayedIn(h, u) {
        assert u in Seated(s.lobby.rooms[h.room]);
        SeatedIsMember(s.lobby, h.room, u);
      }
    }
  }

  lemma SeatedIsMember(l: Lobby, r: RoomId, u: UserId)
    requires LobbyOk(l) && r in l.rooms && u in Seated(l.rooms[r])
    ensures u in l.userRoom && l.userRoom[u] == r
  {
    hide Seats;
    assert u in l.rooms[r].joined;
    assert IsMember(l, u, r);
  }

  lemma ApplyEloBalances(s: Server, r: RoomId, users: map<UserId, int>, odds: Odds, opening: Game)
    requires Fair(s, opening) && Booked(s) && Balanced(s, users, odds)
    ensures Balanced(ApplyElo(s, r, odds), users, odds)
  {
    hide Fair, Booked, Recorded, NewRatings, Holder, MarkEloUpdated, Seated, Sane;
    FairLobby(s, opening);
    if Ratable(s, r) {
      var n := ApplyElo(s, r, odds);
      var h := ResultOf(s, r, odds);
      RatedSeats(s, r, opening);
      SeatedElsewhere(s, r, h.white, opening);
      SeatedElsewhere(s, r, h.black, opening);
      var k := |s.history|;
      assert n.ratings.Keys == users.Keys;
      forall i | 0 <= i < |n.history| ensures EntryOk(n, n.history[i], users, odds) {
        if i < k {
          var e := s.history[i];
          assert EntryOk(s, e, users, odds) && !PlayedIn(e, h.white) && !PlayedIn(e, h.black);
        }
      }
      forall u | u in users && Unrated(n, u) ensures n.ratings[u] == users[u] {
        assert !PlayedIn(n.history[k], u);
        forall i | 0 <= i < k ensures !PlayedIn(s.history[i], u) { assert !PlayedIn(n.history[i], u); }
      }
    }
  }

  lemma RatedSeats(s: Server, r: RoomId, opening: Game)
    requires Fair(s, opening) && Ratable(s, r)
    ensures r in s.lobby.rooms
    ensures var w, b := Holder(s.lobby, r, WhiteSeat).value, Holder(s.lobby, r, BlackSeat).value;
            w in Seated(s.lobby.rooms[r]) && b in Seated(s.lobby.rooms[r]) && w != b
  {
    hide Live, Agree, Holder, Seats;
    HolderIs(s.lobby, r);
    assert RoomOk(s.lobby.rooms[r]);
  }

  lemma SameBooks(s: Server, n: Server, users: map<UserId, int>, odds: Odds)
    requires Balanced(s, users, odds) && n.history == s.history && n.ratings == s.ratings
    ensures Balanced(n, users, odds)
  {
  }

  lemma TickRoomBalances(s: Server, r: RoomId, users: map<UserId, int>, odds: Odds, opening: Game)
    requires Fair(s, opening) && Booked(s) && Balanced(s, users, odds)
    ensures Balanced(TickRoom(s, r, odds), users, odds)
  {
    hide Live, LobbyOk, Lists, Tick, ApplyElo, Forward, Booked, Balanced;
    if r in s.engines {
      TickLives(opening, s.engines[r]);
      EngineKeepsFair(s, r, Tick(s.engines[r], TICK_MS), opening);
      var t := s.(engines := s.engines[r := Tick(s.engines[r], TICK_MS)]);
      ForwardKeepsBooked(s, t);
      SameBooks(s, t, users, odds);
      ApplyEloBalances(t, r, users, odds, opening);
    }
  }

  lemma {:induction false} TickRoomsBalance(s: Server, q: seq<RoomId>, users: map<UserId, int>,
                                            odds: Odds, opening: Game)
    requires Fair(s, opening) && Booked(s) && Balanced(s, users, odds)
    ensures Balanced(TickRooms(s, q, odds), users, odds)
    decreases |q|
  {
    hide Fair, Booked, TickRoom, Balanced;
    FairLobby(s, opening);
    if q != [] {
      TickRoomKeeps(s, q[0], odds, opening);
      TickRoomBalances(s, q[0], users, odds, opening);
      TickRoomsBalance(TickRoom(s, q[0], odds), q[1..], users, odds, opening);
    }
  }

  lemma ForceForfeitBalances(s: Server, r: RoomId, u: UserId, users: map<UserId, int>, odds: Odds, opening: Game)
    requires Fair(s, opening) && Booked(s) && Balanced(s, users, odds)
    ensures Balanced(ForceForfeit(s, r, u, odds), users, odds)
  {
    hide Live, LobbyOk, Lists, Forfeit, ApplyElo, Forward, Booked, SideOf, Balanced;
    if r in s.engines && !s.engines[r].over && SideOf(s.lobby, r, u).Some? {
      var c := SideOf(s.lobby, r, u).value.Other();
      ForfeitLives(opening, s.engines[r], c);
      EngineKeepsFair(s, r, Forfeit(s.engines[r], c), opening);
      var t := s.(engines := s.engines[r := Forfeit(s.engines[r], c)]);
      ForwardKeepsBooked(s, t);
      SameBooks(s, t, users, odds);
      ApplyEloBalances(t, r, users, odds, opening);
    }
  }

  lemma {:induction false} ForfeitAllBalances(s: Server, q: seq<(RoomId, UserId)>, users: map<UserId, int>,
                                              odds: Odds, opening: Game)
    requires Fair(s, opening) && Booked(s) && Balanced(s, users, odds)
    ensures Balanced(ForfeitAll(s, q, odds), users, odds)
    decreases |q|
  {
    hide Fair, Booked, ForceForfeit, ClearDeadline, Forward, Balanced;
    FairLobby(s, opening);
    if q != [] {
      var t := ForceForfeit(s, q[0].0, q[0].1, odds);
      ForceForfeitKeeps(s, q[0].0, q[0].1, odds, opening);
      ForceForfeitBalances(s, q[0].0, q[0].1, users, odds, opening);
      var n := Clear(t, q[0].0, q[0].1);
      ClearKeepsFair(t, q[0].0, q[0].1, opening);
      ForwardKeepsBooked(t, n);
      SameBooks(t, n, users, odds);
      ForfeitAllBalances(n, q[1..], users, odds, opening);
    }
  }

  lemma ForwardParts(s: Server, n: Server)
    requires Forward(s, n)
    ensures n.history == s.history && n.ratings == s.ratings
  {
  }

  lemma FreshBalances(users: map<UserId, int>, odds: Odds)
    ensures Balanced(Fresh(users), users, odds)
  {
  }

  /** In every run each record starts from the ratings its players came with and ends with the ones
      they have now, and whoever is in no record has the rating he came with. */
  lemma {:induction false} RunBalances(users: map<UserId, int>, es: seq<GameServer.Event>, cfg: Setting)
    requires Sound(cfg.opening) && !cfg.opening.over && AllAllowed(users, es, cfg)
    ensures Balanced(GameServer.Run(users, es, cfg), users, cfg.odds)
    decreases |es|
  {
    hide Fair, Booked, Balanced, Forward, Fresh, AllAllowed, Allowed, TickRooms, ForfeitAll, Create, Match, Join,
         SubmitMove;
    if es == [] {
      FreshBalances(users, cfg.odds);
    } else {
      var p, e := es[..|es| - 1], es[|es| - 1];
      AllowedPrefix(users, es, cfg);
      RunBalances(users, p, cfg);
      RunKeeps(users, p, cfg);
      var s := GameServer.Run(users, p, cfg);
      if e.TickAll? {
        TickRoomsBalance(s, s.started, users, cfg.odds, cfg.opening);
      } else if e.Grace? {
        ForfeitAllBalances(s, Expired(s.lobby, e.now), users, cfg.odds, cfg.opening);
      } else {
        QuietKeeps(s, e, cfg);
        ForwardParts(s, GameServer.Next(s, e, cfg));
        SameBooks(s, GameServer.Next(s, e, cfg), users, cfg.odds);
      }
    }
  }

  /** Whichever colour won: in every record the winner and the loser end with what their two ratings give by the
      formula, and the score expected is the one of the winner against the loser. */
  lemma RecordsAreElo(users: map<UserId, int>, es: seq<GameServer.Event>, cfg: Setting, h: GameResult)
    requires Sound(cfg.opening) && !cfg.opening.over && AllAllowed(users, es, cfg)
    requires h in GameServer.Run(users, es, cfg).history
    ensures h.white in users && h.black in users
    ensures h.winner.White? ==>
              var w, l := users[h.white], users[h.black];
              (h.whiteAfter, h.blackAfter) == Elo.CalcElo(w, l, cfg.odds(w, l))
    ensures h.winner.Black? ==>
              var w, l := users[h.black], users[h.white];
              (h.blackAfter, h.whiteAfter) == Elo.CalcElo(w, l, cfg.odds(w, l))
  {
    hide GameServer.Run, AllAllowed, Elo.CalcElo;
    RunBalances(users, es, cfg);
    var s := GameServer.Run(users, es, cfg);
    var i :| 0 <= i < |s.history| && s.history[i] == h;
    assert EntryOk(s, s.history[i], users, cfg.odds);
  }

  /** Two players who swap colours swap their new ratings. */
  lemma ColoursDoNotMatter(winner: Color, white: int, black: int, odds: Odds)
    ensures var n := NewRatings(winner, white, black, odds);
            NewRatings(winner.Other(), black, white, odds) == (n.1, n.0)
  {
  }

  /** A winner loses no points, a loser gains none, and at most one point is made or lost. */
  ghost predicate FairShare(h: GameResult) {
    && (h.winner.White? ==> h.whiteBefore <= h.whiteAfter && h.blackAfter <= h.blackBefore)
    && (h.winner.Black? ==> h.blackBefore <= h.blackAfter && h.whiteAfter <= h.whiteBefore)
    && -1 <= h.whiteAfter + h.blackAfter - (h.whiteBefore + h.blackBefore) <= 1
  }

  lemma EntriesAreFair(s: Server, i: nat, users: map<UserId, int>, odds: Odds)
    requires Balanced(s, users, odds) && i < |s.history| && forall a, b :: 0.0 < odds(a, b) < 1.0
    ensures FairShare(s.history[i])
    ensures forall u | PlayedIn(s.history[i], u) :: u in users && u in s.ratings && Abs(s.ratings[u] - users[u]) <= 32
  {
  }

  /** However many games are played, no rating ever moves by more than 32 points from where its owner
      came with, a winner never loses points, and a game makes or loses one point at most. */
  lemma RatingsStayClose(users: map<UserId, int>, es: seq<GameServer.Event>, cfg: Setting)
    requires Sound(cfg.opening) && !cfg.opening.over && AllAllowed(users, es, cfg)
    requires forall a, b :: 0.0 < cfg.odds(a, b) < 1.0
    ensures var s := GameServer.Run(users, es, cfg);
            && s.ratings.Keys == users.Keys
            && (forall u | u in users :: Abs(s.ratings[u] - users[u]) <= 32)
            && (forall h | h in s.history :: FairShare(h))
  {
    hide GameServer.Run, EntryOk, AllAllowed, FairShare, PlayedIn;
    RunBalances(users, es, cfg);
    var s := GameServer.Run(users, es, cfg);
    forall h | h in s.history ensures FairShare(h) {
      var i :| 0 <= i < |s.history| && s.history[i] == h;
      EntriesAreFair(s, i, users, cfg.odds);
    }
    forall u | u in users ensures Abs(s.ratings[u] - users[u]) <= 32 {
      if !Unrated(s, u) {
        var i :| 0 <= i < |s.history| && PlayedIn(s.history[i], u);
        EntriesAreFair(s, i, users, cfg.odds);
      }
    }
  }
}
