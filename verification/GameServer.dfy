/** The game server as a state machine on values: rooms, one game for each room, ratings, and the
    forfeit of a player who stays away too long. */
module GameServer {
  import opened Basics
  import opened Play
  import opened Rooms
  import Adapter
  import Elo

  const TICK_MS := 50

  datatype GameResult = GameResult(
    room: RoomId, white: UserId, black: UserId, winner: Color,
    whiteBefore: int, blackBefore: int, whiteAfter: int, blackAfter: int)

  /** `started` lists the rooms in the order in which their games were set up. */
  datatype Server = Server(
    lobby: Lobby, engines: map<RoomId, Game>, started: seq<RoomId>,
    ratings: map<UserId, int>, history: seq<GameResult>)

  /** The score a player of one rating is expected to make against one of another. */
  type Odds = (int, int) -> real

  /** The position every game starts from, and the score a player is expected to make against another. */
  datatype Setting = Setting(opening: Game, odds: Odds)

  ghost predicate Sane(s: Server) {
    forall r | r in s.engines :: Sound(s.engines[r])
  }

  function OpenEngine(s: Server, r: RoomId, opening: Game): (n: Server)
    requires Sane(s) && Sound(opening)
    ensures Sane(n)
  {
    if r in s.engines then s else s.(engines := s.engines[r := opening], started := s.started + [r])
  }

  function Create(s: Server, u: UserId, id: RoomId, opening: Game): (n: Server)
    requires Sane(s) && Sound(opening)
    ensures Sane(n)
  {
    if Creatable(s.lobby, u).Some? then s
    else OpenEngine(s.(lobby := CreateRoom(s.lobby, u, id)), id, opening)
  }

  function Match(s: Server, a: UserId, b: UserId, id: RoomId, opening: Game): (n: Server)
    requires Sane(s) && Sound(opening)
    ensures Sane(n)
  {
    if Matchable(s.lobby, a, b, id).Some? then s
    else OpenEngine(s.(lobby := CreateMatchedRoom(s.lobby, a, b, id)), id, opening)
  }

  function Join(s: Server, u: UserId, r: RoomId, opening: Game): (n: Server)
    requires Sane(s) && Sound(opening)
    ensures Sane(n)
  {
    if Joinable(s.lobby, u, r).Some? then s
    else
      var n := s.(lobby := JoinRoom(s.lobby, u, r));
      if NextRole(s.lobby.rooms[r]).Viewer? || s.lobby.rooms[r].gameStarted then n else OpenEngine(n, r, opening)
  }

  function MemberRole(l: Lobby, r: RoomId, u: UserId): Option<Role> {
    if IsMember(l, u, r) then Some(l.rooms[r].members[u].role) else None
  }

  datatype MoveOutcome = NotInARoom | ViewersCannotMove | NoActiveGame | Answered(reply: Adapter.Reply)

  function SeatColor(role: Role): Color {
    if role.WhiteSeat? then White else Black
  }

  function MoveReply(s: Server, u: UserId, start: Position, end: Position): MoveOutcome
    requires Sane(s)
  {
    if u !in s.lobby.userRoom then NotInARoom
    else
      var r := s.lobby.userRoom[u];
      var role := MemberRole(s.lobby, r, u);
      if role == None || role == Some(Viewer) then ViewersCannotMove
      else if r !in s.engines then NoActiveGame
      else Answered(Adapter.PlayerReply(s.engines[r], SeatColor(role.value), start, end))
  }

  /** Who is told of a move that the user has made: everyone in his room. */
  function MoveTold(l: Lobby, u: UserId, outcome: MoveOutcome): seq<UserId> {
    if outcome == Answered(Adapter.Accepted) && u in l.userRoom && l.userRoom[u] in l.rooms
    then l.rooms[l.userRoom[u]].joined else []
  }

  function SubmitMove(s: Server, u: UserId, start: Position, end: Position): (n: Server)
    requires Sane(s)
    ensures Sane(n)
  {
    if !MoveReply(s, u, start, end).Answered? then s
    else
      var r := s.lobby.userRoom[u];
      var c := SeatColor(MemberRole(s.lobby, r, u).value);
      s.(engines := s.engines[r := Adapter.PlayerMove(s.engines[r], c, start, end)])
  }

  predicate EloUpdated(l: Lobby, r: RoomId) {
    r in l.rooms && l.rooms[r].eloUpdated
  }

  /** The new ratings of white and black. */
  function NewRatings(winner: Color, white: int, black: int, odds: Odds): (int, int) {
    if winner.White? then Elo.CalcElo(white, black, odds(white, black))
    else var n := Elo.CalcElo(black, white, odds(black, white)); (n.1, n.0)
  }

  predicate Ratable(s: Server, r: RoomId) {
    && !EloUpdated(s.lobby, r)
    && r in s.engines && s.engines[r].winner.Some?
    && Holder(s.lobby, r, WhiteSeat).Some? && Holder(s.lobby, r, BlackSeat).Some?
    && Holder(s.lobby, r, WhiteSeat).value in s.ratings && Holder(s.lobby, r, BlackSeat).value in s.ratings
  }

  function ResultOf(s: Server, r: RoomId, odds: Odds): GameResult
    requires Ratable(s, r)
  {
    var w, b := Holder(s.lobby, r, WhiteSeat).value, Holder(s.lobby, r, BlackSeat).value;
    var n := NewRatings(s.engines[r].winner.value, s.ratings[w], s.ratings[b], odds);
    GameResult(r, w, b, s.engines[r].winner.value, s.ratings[w], s.ratings[b], n.0, n.1)
  }

  function ApplyElo(s: Server, r: RoomId, odds: Odds): (n: Server)
    requires Sane(s)
    ensures Sane(n) && n.engines == s.engines && n.started == s.started
  {
    if !Ratable(s, r) then s
    else
      var h := ResultOf(s, r, odds);
      s.(ratings := s.ratings[h.white := h.whiteAfter][h.black := h.blackAfter],
         lobby := MarkEloUpdated(s.lobby, r),
         history := s.history + [h])
  }

  function TickRoom(s: Server, r: RoomId, odds: Odds): (n: Server)
    requires Sane(s)
    ensures Sane(n) && n.started == s.started
  {
    if r !in s.engines then s
    else
      var t := s.(engines := s.engines[r := Tick(s.engines[r], TICK_MS)]);
      if t.engines[r].over && !EloUpdated(t.lobby, r) then ApplyElo(t, r, odds) else t
  }

  function TickRooms(s: Server, q: seq<RoomId>, odds: Odds): (n: Server)
    requires Sane(s)
    ensures Sane(n) && n.started == s.started
    decreases |q|
  {
    if q == [] then s else TickRooms(TickRoom(s, q[0], odds), q[1..], odds)
  }

  /** Which side the user plays in the room. */
  function SideOf(l: Lobby, r: RoomId, u: UserId): Option<Color> {
    if Holder(l, r, WhiteSeat) == Some(u) then Some(White)
    else if Holder(l, r, BlackSeat) == Some(u) then Some(Black)
    else None
  }

  function ForceForfeit(s: Server, r: RoomId, loser: UserId, odds: Odds): (n: Server)
    requires Sane(s)
    ensures Sane(n) && n.started == s.started
  {
    if r !in s.engines || s.engines[r].over || SideOf(s.lobby, r, loser).None? then s
    else
      var winner := SideOf(s.lobby, r, loser).value.Other();
      ApplyElo(s.(engines := s.engines[r := Forfeit(s.engines[r], winner)]), r, odds)
  }

  function Clear(s: Server, r: RoomId, u: UserId): (n: Server)
    requires Sane(s)
    ensures Sane(n)
  {
    s.(lobby := ClearDeadline(s.lobby, r, u))
  }

  function ForfeitAll(s: Server, q: seq<(RoomId, UserId)>, odds: Odds): (n: Server)
    requires Sane(s)
    ensures Sane(n) && n.started == s.started
    decreases |q|
  {
    if q == [] then s
    else ForfeitAll(Clear(ForceForfeit(s, q[0].0, q[0].1, odds), q[0].0, q[0].1), q[1..], odds)
  }

  datatype Event =
    | CreateEvent(user: UserId, id: RoomId)
    | MatchEvent(white: UserId, black: UserId, id: RoomId)
    | JoinEvent(user: UserId, room: RoomId)
    | Drop(user: UserId, now: real)
    | Return(user: UserId)
    | Submit(user: UserId, start: Position, end: Position)
    | TickAll
    | Grace(now: real)

  function Next(s: Server, e: Event, cfg: Setting): (n: Server)
    requires Sane(s) && Sound(cfg.opening)
    ensures Sane(n)
  {
    match e
    case CreateEvent(u, id) => Create(s, u, id, cfg.opening)
    case MatchEvent(a, b, id) => Match(s, a, b, id, cfg.opening)
    case JoinEvent(u, r) => Join(s, u, r, cfg.opening)
    case Drop(u, now) => s.(lobby := MarkDisconnected(s.lobby, u, now))
    case Return(u) => s.(lobby := Reconnect(s.lobby, u))
    case Submit(u, a, b) => SubmitMove(s, u, a, b)
    case TickAll => TickRooms(s, s.started, cfg.odds)
    case Grace(now) => ForfeitAll(s, Expired(s.lobby, now), cfg.odds)
  }

  function Fresh(users: map<UserId, int>): Server {
    Server(EMPTY_LOBBY, map[], [], users, [])
  }

  function Run(users: map<UserId, int>, es: seq<Event>, cfg: Setting): (s: Server)
    requires Sound(cfg.opening)
    ensures Sane(s)
    decreases |es|
  {
    if es == [] then Fresh(users) else Next(Run(users, es[..|es| - 1], cfg), es[|es| - 1], cfg)
  }

  /** New rooms get new names, and nobody is matched with himself. */
  predicate Allowed(s: Server, e: Event) {
    match e
    case CreateEvent(_, id) => id !in s.lobby.rooms
    case MatchEvent(a, b, _) => a != b
    case _ => true
  }

  ghost predicate AllAllowed(users: map<UserId, int>, es: seq<Event>, cfg: Setting)
    requires Sound(cfg.opening)
  {
    forall k | 0 <= k < |es| :: Allowed(Run(users, es[..k], cfg), es[k])
  }
}
