/** Rooms, seats and disconnect deadlines as a state machine on values. A dictionary whose order is
    looked at is a map together with the sequence of its keys in the order they were put in. */
module Rooms {
  import opened Basics

  type RoomId = string

  const DISCONNECT_GRACE_SECONDS := 20.0

  datatype Role = WhiteSeat | BlackSeat | Viewer

  datatype Member = Member(role: Role, connected: bool, deadline: Option<real>)

  datatype Room = Room(members: map<UserId, Member>, joined: seq<UserId>, eloUpdated: bool, gameStarted: bool)

  datatype Lobby = Lobby(rooms: map<RoomId, Room>, order: seq<RoomId>, userRoom: map<UserId, RoomId>)

  const EMPTY_LOBBY := Lobby(map[], [], map[])

  const EMPTY_ROOM := Room(map[], [], false, false)

  datatype Refusal = AlreadyInRoom | RoomNotFound | RoomExists

  /** Put a user under a key that may or may not be there already. */
  function Enter(room: Room, u: UserId, role: Role): Room {
    room.(members := room.members[u := Member(role, true, None)],
          joined := if u in room.members then room.joined else room.joined + [u])
  }

  function Without(q: seq<UserId>, u: UserId): seq<UserId> {
    if q == [] then [] else (if q[0] == u then [] else [q[0]]) + Without(q[1..], u)
  }

  function Leave(room: Room, u: UserId): Room {
    room.(members := room.members - {u}, joined := Without(room.joined, u))
  }

  function PutRoom(l: Lobby, r: RoomId, room: Room): Lobby {
    l.(rooms := l.rooms[r := room], order := if r in l.rooms then l.order else l.order + [r])
  }

  function Creatable(l: Lobby, u: UserId): Option<Refusal> {
    if u in l.userRoom then Some(AlreadyInRoom) else None
  }

  function CreateRoom(l: Lobby, u: UserId, id: RoomId): Lobby {
    if Creatable(l, u).Some? then l
    else PutRoom(l, id, Enter(EMPTY_ROOM, u, WhiteSeat).(gameStarted := true)).(userRoom := l.userRoom[u := id])
  }

  function Matchable(l: Lobby, a: UserId, b: UserId, id: RoomId): Option<Refusal> {
    if a in l.userRoom || b in l.userRoom then Some(AlreadyInRoom)
    else if id in l.rooms then Some(RoomExists)
    else None
  }

  function MatchedRoom(a: UserId, b: UserId): Room {
    Enter(Enter(EMPTY_ROOM, a, WhiteSeat), b, BlackSeat).(gameStarted := true)
  }

  function CreateMatchedRoom(l: Lobby, a: UserId, b: UserId, id: RoomId): Lobby {
    if Matchable(l, a, b, id).Some? then l
    else PutRoom(l, id, MatchedRoom(a, b)).(userRoom := l.userRoom[a := id][b := id])
  }

  function Players(room: Room): set<UserId> {
    set u | u in room.members && !room.members[u].role.Viewer?
  }

  function NextRole(room: Room): Role {
    if |Players(room)| == 0 then WhiteSeat else if |Players(room)| == 1 then BlackSeat else Viewer
  }

  function Joinable(l: Lobby, u: UserId, r: RoomId): Option<Refusal> {
    if r !in l.rooms then Some(RoomNotFound)
    else if u in l.userRoom then Some(AlreadyInRoom)
    else None
  }

  function Joined(room: Room, u: UserId): Room {
    var role := NextRole(room);
    Enter(room, u, role).(gameStarted := room.gameStarted || !role.Viewer?)
  }

  function JoinRoom(l: Lobby, u: UserId, r: RoomId): Lobby {
    if Joinable(l, u, r).Some? then l
    else PutRoom(l, r, Joined(l.rooms[r], u)).(userRoom := l.userRoom[u := r])
  }

  predicate IsMember(l: Lobby, u: UserId, r: RoomId) {
    r in l.rooms && u in l.rooms[r].members
  }

  predicate IsPlayer(l: Lobby, u: UserId, r: RoomId) {
    IsMember(l, u, r) && !l.rooms[r].members[u].role.Viewer?
  }

  /** The player who falls off the line keeps the seat for a while; a viewer is gone at once. */
  function MarkDisconnected(l: Lobby, u: UserId, now: real): Lobby {
    if u !in l.userRoom || l.userRoom[u] !in l.rooms then l
    else
      var r := l.userRoom[u];
      var room := l.rooms[r];
      if !IsPlayer(l, u, r)
      then PutRoom(l, r, Leave(room, u)).(userRoom := l.userRoom - {u})
      else PutRoom(l, r, room.(members := room.members[u := room.members[u]
                   .(connected := false, deadline := Some(now + DISCONNECT_GRACE_SECONDS))]))
  }

  /** Who is told that the player u has fallen off the line, when the lobby went from l to n: everyone in
      the room. Nobody is told of a viewer. */
  function Told(l: Lobby, n: Lobby, u: UserId): seq<UserId> {
    if u in l.userRoom && IsPlayer(l, u, l.userRoom[u]) && l.userRoom[u] in n.rooms
    then n.rooms[l.userRoom[u]].joined else []
  }

  function Reconnect(l: Lobby, u: UserId): Lobby {
    if u !in l.userRoom || !IsMember(l, u, l.userRoom[u]) then l
    else
      var r := l.userRoom[u];
      var room := l.rooms[r];
      PutRoom(l, r, room.(members := room.members[u := room.members[u].(connected := true, deadline := None)]))
  }

  function ClearDeadline(l: Lobby, r: RoomId, u: UserId): Lobby {
    if !IsMember(l, u, r) then l
    else
      var room := l.rooms[r];
      PutRoom(l, r, room.(members := room.members[u := room.members[u].(deadline := None)]))
  }

  function MarkEloUpdated(l: Lobby, r: RoomId): Lobby {
    if r !in l.rooms then l else PutRoom(l, r, l.rooms[r].(eloUpdated := true))
  }

  /** The last of the users of q who has the given role. */
  function HolderIn(room: Room, q: seq<UserId>, role: Role): Option<UserId> {
    if q == [] then None
    else
      var u := q[|q| - 1];
      if u in room.members && room.members[u].role == role then Some(u) else HolderIn(room, q[..|q| - 1], role)
  }

  function Holder(l: Lobby, r: RoomId, role: Role): Option<UserId> {
    if r in l.rooms then HolderIn(l.rooms[r], l.rooms[r].joined, role) else None
  }

  predicate Lapsed(m: Member, now: real) {
    !m.connected && m.deadline.Some? && m.deadline.value <= now && !m.role.Viewer?
  }

  function ExpiredIn(r: RoomId, room: Room, q: seq<UserId>, now: real): seq<(RoomId, UserId)> {
    if q == [] then []
    else (if q[0] in room.members && Lapsed(room.members[q[0]], now) then [(r, q[0])] else [])
         + ExpiredIn(r, room, q[1..], now)
  }

  function ExpiredOf(l: Lobby, q: seq<RoomId>, now: real): seq<(RoomId, UserId)> {
    if q == [] then []
    else (if q[0] in l.rooms then ExpiredIn(q[0], l.rooms[q[0]], l.rooms[q[0]].joined, now) else [])
         + ExpiredOf(l, q[1..], now)
  }

  /** Whose grace is over, room by room in the order of creation, member by member in the order of entry. */
  function Expired(l: Lobby, now: real): seq<(RoomId, UserId)> {
    ExpiredOf(l, l.order, now)
  }

  // ---- The invariant ----

  ghost predicate Lists<T(!new)>(q: seq<T>, s: set<T>) {
    && (forall i, j | 0 <= i < j < |q| :: q[i] != q[j])
    && (forall x :: x in q <==> x in s)
  }

  function RoleAt(k: nat): Role {
    if k == 0 then WhiteSeat else if k == 1 then BlackSeat else Viewer
  }

  ghost predicate Seats(room: Room)
    requires Lists(room.joined, room.members.Keys)
  {
    forall k | 0 <= k < |room.joined| :: room.members[room.joined[k]].role == RoleAt(k)
  }

  /** The first to enter has the white seat, the second the black one, everyone else looks on; and
      only a player who is away has a deadline. */
  ghost predicate RoomOk(room: Room) {
    && Lists(room.joined, room.members.Keys) && Seats(room)
    && room.joined != [] && room.gameStarted
    && (forall u | u in room.members && room.members[u].deadline.Some? ::
          !room.members[u].connected && !room.members[u].role.Viewer?)
  }

  ghost predicate Agree(l: Lobby) {
    forall u, r :: u in l.userRoom && l.userRoom[u] == r <==> IsMember(l, u, r)
  }

  ghost predicate LobbyOk(l: Lobby) {
    && Lists(l.order, l.rooms.Keys)
    && (forall r | r in l.rooms :: RoomOk(l.rooms[r]))
    && Agree(l)
  }

  /** Somebody beyond the two seats leaves: those before keep their place. */
  lemma {:induction false} WithoutAt(q: seq<UserId>, k: nat)
    requires k < |q| && forall i, j | 0 <= i < j < |q| :: q[i] != q[j]
    ensures Without(q, q[k]) == q[..k] + q[k + 1..]
  {
    if k > 0 {
      WithoutAt(q[1..], k - 1);
      assert q[1..][..k - 1] == q[1..k] && q[1..][k..] == q[k + 1..];
    } else {
      WithoutNobody(q[1..], q[0]);
    }
  }

  lemma {:induction false} WithoutNobody(q: seq<UserId>, u: UserId)
    requires u !in q
    ensures Without(q, u) == q
  {
    if q != [] { WithoutNobody(q[1..], u); }
  }

  lemma WithoutIs(q: seq<UserId>, k: nat, s: set<UserId>)
    requires k < |q| && Lists(q, s)
    ensures Lists(Without(q, q[k]), s - {q[k]})
    ensures |Without(q, q[k])| == |q| - 1
    ensures forall j | 0 <= j < |q| - 1 :: Without(q, q[k])[j] == q[if j < k then j else j + 1]
  {
    hide Without;
    WithoutAt(q, k);
    var w := Without(q, q[k]);
    forall u ensures u in w <==> u in s && u != q[k] {
      if u in q && u != q[k] {
        var j :| 0 <= j < |q| && q[j] == u;
        assert w[if j < k then j else j - 1] == u;
      }
    }
  }

  lemma EnterKeeps(room: Room, u: UserId)
    requires Lists(room.joined, room.members.Keys) && u !in room.members && Seats(room)
    requires forall v | v in room.members && room.members[v].deadline.Some? ::
          !room.members[v].connected && !room.members[v].role.Viewer?
    ensures RoomOk(Enter(room, u, RoleAt(|room.joined|)).(gameStarted := true))
  {
  }

  /** Counting the players tells the next role: it is the one of the next place. */
  lemma NextRoleIs(room: Room)
    requires RoomOk(room)
    ensures NextRole(room) == RoleAt(|room.joined|)
  {
    var q := room.joined;
    forall u ensures u in Players(room) <==> u == q[0] || (|q| > 1 && u == q[1]) {
      if u in room.members {
        var k :| 0 <= k < |q| && q[k] == u;
      }
    }
    if |q| == 1 {
      assert Players(room) == {q[0]};
    } else {
      assert Players(room) == {q[0], q[1]};
    }
  }

  /** Whoever joins a room in which there is nobody has white and starts its game. */
  lemma FirstToJoin(u: UserId)
    ensures Joined(EMPTY_ROOM, u) == Room(map[u := Member(WhiteSeat, true, None)], [u], false, true)
  {
  }

  lemma LeaveKeepsSeats(room: Room, k: nat)
    requires Lists(room.joined, room.members.Keys) && Seats(room) && 2 <= k < |room.joined|
    ensures var n := Leave(room, room.joined[k]); Lists(n.joined, n.members.Keys) && Seats(n)
    ensures Leave(room, room.joined[k]).joined != []
  {
    hide Lists;
    var u := room.joined[k];
    WithoutIs(room.joined, k, room.members.Keys);
    assert (room.members - {u}).Keys == room.members.Keys - {u};
    var n := Leave(room, u);
    forall j | 0 <= j < |n.joined| ensures n.joined[j] in n.members && n.members[n.joined[j]].role == RoleAt(j) {
      var i := if j < k then j else j + 1;
      ListsHas(n.joined, n.members.Keys, j);
      ListsHas(room.joined, room.members.Keys, i);
      assert n.joined[j] == room.joined[i];
      assert n.members[n.joined[j]] == room.members[room.joined[i]];
      assert room.members[room.joined[i]].role == RoleAt(i) == RoleAt(j);
    }
  }

  lemma ListsHas<T(!new)>(q: seq<T>, s: set<T>, j: nat)
    requires Lists(q, s) && j < |q|
    ensures q[j] in s
  {
  }

  lemma LeaveKeeps(room: Room, u: UserId)
    requires RoomOk(room) && u in room.members && room.members[u].role.Viewer?
    ensures RoomOk(Leave(room, u))
  {
    hide Without;
    var k :| 0 <= k < |room.joined| && room.joined[k] == u;
    LeaveKeepsSeats(room, k);
  }

  lemma UpdateKeeps(room: Room, u: UserId, m: Member)
    requires RoomOk(room) && u in room.members && m.role == room.members[u].role
    requires m.deadline.Some? ==> !m.connected && !m.role.Viewer?
    ensures RoomOk(room.(members := room.members[u := m]))
  {
  }

  /** One room is put back with members who know where they are. */
  lemma PutKeeps(l: Lobby, r: RoomId, room: Room)
    requires Lists(l.order, l.rooms.Keys)
    requires forall s | s in l.rooms && s != r :: RoomOk(l.rooms[s])
    requires RoomOk(room)
    ensures Lists(PutRoom(l, r, room).order, PutRoom(l, r, room).rooms.Keys)
    ensures forall s | s in PutRoom(l, r, room).rooms :: RoomOk(PutRoom(l, r, room).rooms[s])
  {
  }

  lemma PutSameMembers(l: Lobby, r: RoomId, room: Room)
    requires LobbyOk(l) && RoomOk(room) && r in l.rooms && room.members.Keys == l.rooms[r].members.Keys
    ensures LobbyOk(PutRoom(l, r, room))
  {
    hide RoomOk, Lists;
    PutKeeps(l, r, room);
    var n := PutRoom(l, r, room);
    assert forall u, s :: IsMember(n, u, s) <==> IsMember(l, u, s);
  }

  ghost predicate SomewhereIn(l: Lobby, u: UserId) {
    exists r :: IsMember(l, u, r)
  }

  /** Who is refused a room, and why: whoever is in one already, and whoever asks for one that does not exist, or for
      a new one under a name that does; a joiner is told first that there is no such room, and a pair first that one
      of the two is in a room. A refusal changes nothing. */
  lemma RefusalsAre(l: Lobby, u: UserId, b: UserId, id: RoomId)
    requires LobbyOk(l)
    ensures Creatable(l, u) == if SomewhereIn(l, u) then Some(AlreadyInRoom) else None
    ensures Matchable(l, u, b, id) == if SomewhereIn(l, u) || SomewhereIn(l, b) then Some(AlreadyInRoom)
                                      else if id in l.rooms then Some(RoomExists) else None
    ensures Joinable(l, u, id) == if id !in l.rooms then Some(RoomNotFound)
                                  else if SomewhereIn(l, u) then Some(AlreadyInRoom) else None
    ensures Creatable(l, u).Some? ==> CreateRoom(l, u, id) == l
    ensures Matchable(l, u, b, id).Some? ==> CreateMatchedRoom(l, u, b, id) == l
    ensures Joinable(l, u, id).Some? ==> JoinRoom(l, u, id) == l
  {
    hide Lists, RoomOk, IsMember;
    UserMapped(l, u);
    UserMapped(l, b);
  }

  lemma UserMapped(l: Lobby, u: UserId)
    requires Agree(l)
    ensures u in l.userRoom <==> SomewhereIn(l, u)
  {
    if u in l.userRoom { assert IsMember(l, u, l.userRoom[u]); }
  }

  /** With a fresh room id the indices go on agreeing; with a taken one they never do. */
  lemma CreateKeeps(l: Lobby, u: UserId, id: RoomId)
    requires LobbyOk(l)
    ensures LobbyOk(CreateRoom(l, u, id)) <==> u in l.userRoom || id !in l.rooms
  {
    if u !in l.userRoom {
      var n := CreateRoom(l, u, id);
      if id in l.rooms {
        var w := l.rooms[id].joined[0];
        assert IsMember(l, w, id) && !IsMember(l, u, id);
        assert n.userRoom[w] == id && !IsMember(n, w, id);
      } else {
        EnterKeeps(EMPTY_ROOM, u);
        PutKeeps(l, id, n.rooms[id]);
        hide RoomOk, Lists;
        forall v, r ensures v in n.userRoom && n.userRoom[v] == r <==> IsMember(n, v, r) {
          assert v in l.userRoom && l.userRoom[v] == r <==> IsMember(l, v, r);
        }
      }
    }
  }

  lemma MatchAgrees(l: Lobby, a: UserId, b: UserId, id: RoomId)
    requires Agree(l) && Matchable(l, a, b, id).None?
    ensures Agree(CreateMatchedRoom(l, a, b, id))
  {
    var n := CreateMatchedRoom(l, a, b, id);
    forall v, r ensures v in n.userRoom && n.userRoom[v] == r <==> IsMember(n, v, r) {
      assert v in l.userRoom && l.userRoom[v] == r <==> IsMember(l, v, r);
    }
  }

  /** A room name drawn twice: the second room replaces the first, and its white player is in no room. */
  lemma TakenNameBreaksLobby()
    ensures var l := CreateRoom(EMPTY_LOBBY, "a", "r");
            var n := CreateRoom(l, "b", "r");
            && LobbyOk(l) && Creatable(l, "b").None? && "r" in l.rooms && !LobbyOk(n)
            && "a" in n.userRoom && !IsMember(n, "a", n.userRoom["a"])
  {
    var l := CreateRoom(EMPTY_LOBBY, "a", "r");
    CreateKeeps(EMPTY_LOBBY, "a", "r");
    CreateKeeps(l, "b", "r");
  }

  /** A match of two different users seats both; a user matched with himself gets no white seat. */
  lemma CreateMatchedKeeps(l: Lobby, a: UserId, b: UserId, id: RoomId)
    requires LobbyOk(l)
    ensures LobbyOk(CreateMatchedRoom(l, a, b, id)) <==> a != b || Matchable(l, a, b, id).Some?
  {
    hide Agree;
    if Matchable(l, a, b, id).None? {
      var n := CreateMatchedRoom(l, a, b, id);
      if a == b {
        assert n.rooms[id].joined[0] == a && n.rooms[id].members[a].role == BlackSeat;
        assert !RoomOk(n.rooms[id]);
      } else {
        EnterKeeps(EMPTY_ROOM, a);
        EnterKeeps(Enter(EMPTY_ROOM, a, WhiteSeat), b);
        PutKeeps(l, id, n.rooms[id]);
        MatchAgrees(l, a, b, id);
      }
    }
  }

  lemma JoinKeeps(l: Lobby, u: UserId, r: RoomId)
    requires LobbyOk(l)
    ensures LobbyOk(JoinRoom(l, u, r))
  {
    if Joinable(l, u, r).None? {
      var n := JoinRoom(l, u, r);
      assert !IsMember(l, u, r);
      NextRoleIs(l.rooms[r]);
      EnterKeeps(l.rooms[r], u);
      PutKeeps(l, r, n.rooms[r]);
      forall v, s ensures v in n.userRoom && n.userRoom[v] == s <==> IsMember(n, v, s) {
        assert v in l.userRoom && l.userRoom[v] == s <==> IsMember(l, v, s);
      }
    }
  }

  lemma DisconnectKeeps(l: Lobby, u: UserId, now: real)
    requires LobbyOk(l)
    ensures LobbyOk(MarkDisconnected(l, u, now))
  {
    if u in l.userRoom {
      var r := l.userRoom[u];
      assert IsMember(l, u, r);
      var n := MarkDisconnected(l, u, now);
      if IsPlayer(l, u, r) {
        UpdateKeeps(l.rooms[r], u, n.rooms[r].members[u]);
        PutSameMembers(l, r, n.rooms[r]);
      } else {
        LeaveKeeps(l.rooms[r], u);
        PutKeeps(l, r, n.rooms[r]);
        forall v, s ensures v in n.userRoom && n.userRoom[v] == s <==> IsMember(n, v, s) {
          assert v in l.userRoom && l.userRoom[v] == s <==> IsMember(l, v, s);
        }
      }
    }
  }

  lemma ReconnectKeeps(l: Lobby, u: UserId)
    requires LobbyOk(l)
    ensures LobbyOk(Reconnect(l, u))
  {
    hide Lists;
    if u in l.userRoom && IsMember(l, u, l.userRoom[u]) {
      var r := l.userRoom[u];
      UpdateKeeps(l.rooms[r], u, l.rooms[r].members[u].(connected := true, deadline := None));
      PutSameMembers(l, r, Reconnect(l, u).rooms[r]);
    }
  }

  lemma ClearKeeps(l: Lobby, r: RoomId, u: UserId)
    requires LobbyOk(l)
    ensures LobbyOk(ClearDeadline(l, r, u))
  {
    hide Lists;
    if IsMember(l, u, r) {
      UpdateKeeps(l.rooms[r], u, l.rooms[r].members[u].(deadline := None));
      PutSameMembers(l, r, ClearDeadline(l, r, u).rooms[r]);
    }
  }

  lemma MarkKeeps(l: Lobby, r: RoomId)
    requires LobbyOk(l)
    ensures LobbyOk(MarkEloUpdated(l, r))
  {
    hide Lists;
    if r in l.rooms {
      PutSameMembers(l, r, MarkEloUpdated(l, r).rooms[r]);
    }
  }

  // ---- What the invariant means ----

  lemma RoleTells(room: Room, u: UserId)
    requires RoomOk(room) && u in room.members
    ensures room.members[u].role.WhiteSeat? <==> u == room.joined[0]
    ensures room.members[u].role.BlackSeat? <==> |room.joined| > 1 && u == room.joined[1]
  {
  }

  lemma JoinedAreMembers(room: Room, k: nat)
    requires RoomOk(room) && k < |room.joined|
    ensures room.joined[k] in room.members
    ensures |room.joined| == 1 ==> room.members.Keys == {room.joined[0]}
  {
  }

  /** Exactly one member has white, at most one has black, and nobody looks on while black is free. */
  ghost predicate OneEach(room: Room) {
    var ms := room.members;
    && (exists w :: w in ms && forall u | u in ms :: ms[u].role.WhiteSeat? <==> u == w)
    && (forall u, v | u in ms && v in ms :: ms[u].role.BlackSeat? && ms[v].role.BlackSeat? ==> u == v)
    && (forall v | v in ms && ms[v].role.Viewer? :: exists b :: b in ms && ms[b].role.BlackSeat?)
  }

  lemma SeatsAre(room: Room)
    requires RoomOk(room)
    ensures OneEach(room)
  {
    hide Lists, Seats;
    JoinedAreMembers(room, 0);
    if |room.joined| > 1 { JoinedAreMembers(room, 1); }
    forall u | u in room.members
      ensures room.members[u].role.WhiteSeat? <==> u == room.joined[0]
      ensures room.members[u].role.BlackSeat? <==> |room.joined| > 1 && u == room.joined[1]
    {
      RoleTells(room, u);
    }
  }

  lemma {:induction false} HolderFirst(room: Room, n: nat)
    requires RoomOk(room) && n <= |room.joined|
    ensures HolderIn(room, room.joined[..n], WhiteSeat) == if n > 0 then Some(room.joined[0]) else None
    ensures HolderIn(room, room.joined[..n], BlackSeat) == if n > 1 then Some(room.joined[1]) else None
  {
    if n > 0 {
      assert room.joined[..n][..n - 1] == room.joined[..n - 1];
      HolderFirst(room, n - 1);
    }
  }

  /** The scan for the players finds the first two to enter. */
  lemma HolderIs(l: Lobby, r: RoomId)
    requires LobbyOk(l) && r in l.rooms
    ensures var q := l.rooms[r].joined;
            && Holder(l, r, WhiteSeat) == Some(q[0])
            && Holder(l, r, BlackSeat) == if |q| > 1 then Some(q[1]) else None
  {
    var room := l.rooms[r];
    HolderFirst(room, |room.joined|);
    assert room.joined[..|room.joined|] == room.joined;
  }

  /** Whoever makes a room has white; of a matched pair the first has white and the second black; and
      whoever joins gets black if that seat is free. */
  lemma SeatsGiven(l: Lobby, u: UserId, b: UserId, id: RoomId)
    requires LobbyOk(l)
    ensures Creatable(l, u).None? && id !in l.rooms ==>
              Holder(CreateRoom(l, u, id), id, WhiteSeat) == Some(u)
              && Holder(CreateRoom(l, u, id), id, BlackSeat) == None
    ensures Matchable(l, u, b, id).None? && u != b ==>
              Holder(CreateMatchedRoom(l, u, b, id), id, WhiteSeat) == Some(u)
              && Holder(CreateMatchedRoom(l, u, b, id), id, BlackSeat) == Some(b)
    ensures Joinable(l, u, id).None? ==>
              Holder(JoinRoom(l, u, id), id, WhiteSeat) == Holder(l, id, WhiteSeat)
              && Holder(JoinRoom(l, u, id), id, BlackSeat)
                 == if Holder(l, id, BlackSeat).None? then Some(u) else Holder(l, id, BlackSeat)
  {
    hide Lists, RoomOk, Holder, Agree;
    if Creatable(l, u).None? && id !in l.rooms {
      CreateKeeps(l, u, id);
      HolderIs(CreateRoom(l, u, id), id);
    }
    if Matchable(l, u, b, id).None? && u != b {
      CreateMatchedKeeps(l, u, b, id);
      HolderIs(CreateMatchedRoom(l, u, b, id), id);
    }
    if Joinable(l, u, id).None? {
      JoinKeeps(l, u, id);
      HolderIs(l, id);
      HolderIs(JoinRoom(l, u, id), id);
      JoinedLast(l, u, id);
    }
  }

  lemma JoinedLast(l: Lobby, u: UserId, r: RoomId)
    requires LobbyOk(l) && Joinable(l, u, r).None?
    ensures JoinRoom(l, u, r).rooms[r].joined == l.rooms[r].joined + [u] && l.rooms[r].joined != []
  {
    hide Lists;
    assert RoomOk(l.rooms[r]) && !IsMember(l, u, r);
  }

  /** The holders of the white and the black seat, as far as they are taken. */
  function Seated(room: Room): seq<UserId> {
    if |room.joined| > 2 then room.joined[..2] else room.joined
  }

  /** No room goes away, no seat changes hands, and no room becomes or ceases to be rated. */
  ghost predicate Onward(l: Lobby, n: Lobby) {
    && LobbyOk(n)
    && (forall r | r in l.rooms :: r in n.rooms && Seated(l.rooms[r]) <= Seated(n.rooms[r]))
    && (forall r | r in n.rooms :: n.rooms[r].eloUpdated <==> r in l.rooms && l.rooms[r].eloUpdated)
  }

  function Deadline(l: Lobby, r: RoomId, u: UserId): Option<real> {
    if IsMember(l, u, r) then l.rooms[r].members[u].deadline else None
  }

  lemma PutOnward(l: Lobby, r: RoomId, room: Room, n: Lobby)
    requires n.rooms == l.rooms[r := room] && LobbyOk(n)
    requires r in l.rooms ==> Seated(l.rooms[r]) <= Seated(room) && room.eloUpdated == l.rooms[r].eloUpdated
    requires r !in l.rooms ==> !room.eloUpdated
    ensures Onward(l, n)
  {
  }

  lemma CreateOnward(l: Lobby, u: UserId, id: RoomId)
    requires LobbyOk(l) && id !in l.rooms
    ensures Onward(l, CreateRoom(l, u, id))
  {
    hide LobbyOk, Lists;
    CreateKeeps(l, u, id);
    var n := CreateRoom(l, u, id);
    if u !in l.userRoom { PutOnward(l, id, n.rooms[id], n); }
  }

  lemma CreateMatchedOnward(l: Lobby, a: UserId, b: UserId, id: RoomId)
    requires LobbyOk(l) && a != b
    ensures Onward(l, CreateMatchedRoom(l, a, b, id))
  {
    hide LobbyOk, Lists;
    CreateMatchedKeeps(l, a, b, id);
    var n := CreateMatchedRoom(l, a, b, id);
    if Matchable(l, a, b, id).None? { PutOnward(l, id, n.rooms[id], n); }
  }

  lemma JoinOnward(l: Lobby, u: UserId, r: RoomId)
    requires LobbyOk(l)
    ensures Onward(l, JoinRoom(l, u, r))
  {
    hide LobbyOk, Lists;
    JoinKeeps(l, u, r);
    var n := JoinRoom(l, u, r);
    if Joinable(l, u, r).None? { PutOnward(l, r, n.rooms[r], n); }
  }

  lemma LeaveKeepsSeated(room: Room, u: UserId)
    requires RoomOk(room) && u in room.members && room.members[u].role.Viewer?
    ensures Seated(Leave(room, u)) == Seated(room)
  {
    hide Without;
    var k :| 0 <= k < |room.joined| && room.joined[k] == u;
    WithoutIs(room.joined, k, room.members.Keys);
  }

  lemma DisconnectOnward(l: Lobby, u: UserId, now: real)
    requires LobbyOk(l)
    ensures Onward(l, MarkDisconnected(l, u, now))
  {
    hide Lists, Seats, Leave;
    DisconnectKeeps(l, u, now);
    var n := MarkDisconnected(l, u, now);
    if u in l.userRoom {
      var r := l.userRoom[u];
      assert IsMember(l, u, r);
      if !IsPlayer(l, u, r) {
        LeaveKeepsSeated(l.rooms[r], u);
        LeaveKeepsFlags(l.rooms[r], u);
      }
      PutOnward(l, r, n.rooms[r], n);
    }
  }

  lemma LeaveKeepsFlags(room: Room, u: UserId)
    ensures Leave(room, u).eloUpdated == room.eloUpdated && Leave(room, u).gameStarted == room.gameStarted
  {
  }

  lemma ReconnectOnward(l: Lobby, u: UserId)
    requires LobbyOk(l)
    ensures Onward(l, Reconnect(l, u))
  {
    hide LobbyOk;
    ReconnectKeeps(l, u);
    var n := Reconnect(l, u);
    if u in l.userRoom && IsMember(l, u, l.userRoom[u]) { PutOnward(l, l.userRoom[u], n.rooms[l.userRoom[u]], n); }
  }

  lemma ClearOnward(l: Lobby, r: RoomId, u: UserId)
    requires LobbyOk(l)
    ensures Onward(l, ClearDeadline(l, r, u))
  {
    hide LobbyOk;
    ClearKeeps(l, r, u);
    var n := ClearDeadline(l, r, u);
    if IsMember(l, u, r) { PutOnward(l, r, n.rooms[r], n); }
  }

  /** The user is in the room and on the line. */
  predicate Online(l: Lobby, r: RoomId, u: UserId) {
    IsMember(l, u, r) && l.rooms[r].members[u].connected
  }

  /** Whoever enters a room is on the line there, and nobody else comes to it or leaves it. */
  lemma EntryKeepsLines(l: Lobby, u: UserId, b: UserId, id: RoomId, r: RoomId, v: UserId)
    requires LobbyOk(l)
    ensures Creatable(l, u).None? && id !in l.rooms ==>
              (Online(CreateRoom(l, u, id), r, v) <==> Online(l, r, v) || (v == u && r == id))
    ensures Matchable(l, u, b, id).None? ==>
              (Online(CreateMatchedRoom(l, u, b, id), r, v) <==> Online(l, r, v) || (v in {u, b} && r == id))
    ensures Joinable(l, u, id).None? ==>
              (Online(JoinRoom(l, u, id), r, v) <==> Online(l, r, v) || (v == u && r == id))
  {
    hide Lists, Seats, NextRole;
  }

  /** Entering a room starts no countdown and stops none. */
  lemma EntryKeepsDeadlines(l: Lobby, u: UserId, b: UserId, id: RoomId, r: RoomId, v: UserId)
    requires LobbyOk(l)
    ensures id !in l.rooms ==> Deadline(CreateRoom(l, u, id), r, v) == Deadline(l, r, v)
    ensures Deadline(CreateMatchedRoom(l, u, b, id), r, v) == Deadline(l, r, v)
    ensures Deadline(JoinRoom(l, u, id), r, v) == Deadline(l, r, v)
  {
  }

  /** A player who falls off the line is given 20 seconds; nobody else's deadline changes, and nobody else's line. */
  lemma DisconnectDeadline(l: Lobby, u: UserId, now: real, r: RoomId, v: UserId)
    requires LobbyOk(l)
    ensures Deadline(MarkDisconnected(l, u, now), r, v)
            == if v == u && IsPlayer(l, u, r) then Some(now + 20.0) else Deadline(l, r, v)
    ensures Online(MarkDisconnected(l, u, now), r, v) <==> Online(l, r, v) && v != u
  {
    hide Lists, Seats;
    assert u in l.userRoom && l.userRoom[u] == r <==> IsMember(l, u, r);
  }

  /** When a player falls off the line everyone in the room is told, the player included; of a viewer, nobody. */
  lemma ToldAre(l: Lobby, u: UserId, now: real, r: RoomId)
    requires LobbyOk(l)
    ensures IsPlayer(l, u, r) ==> Told(l, MarkDisconnected(l, u, now), u) == l.rooms[r].joined
    ensures IsMember(l, u, r) && !IsPlayer(l, u, r) ==> Told(l, MarkDisconnected(l, u, now), u) == []
    ensures !SomewhereIn(l, u) ==> Told(l, MarkDisconnected(l, u, now), u) == []
  {
    hide Lists, RoomOk;
    UserMapped(l, u);
    assert u in l.userRoom && l.userRoom[u] == r <==> IsMember(l, u, r);
  }

  /** A user who is back has no deadline and is on the line; nothing of anybody else's changes. */
  lemma ReconnectDeadline(l: Lobby, u: UserId, r: RoomId, v: UserId)
    requires LobbyOk(l)
    ensures Deadline(Reconnect(l, u), r, v) == if v == u then None else Deadline(l, r, v)
    ensures Online(Reconnect(l, u), r, v) <==> Online(l, r, v) || (v == u && IsMember(l, u, r))
  {
    hide Lists, RoomOk;
    assert u in l.userRoom && l.userRoom[u] == r <==> IsMember(l, u, r);
  }

  lemma ClearsDeadline(l: Lobby, r: RoomId, u: UserId, s: RoomId, v: UserId)
    ensures Deadline(ClearDeadline(l, r, u), s, v) == if (s, v) == (r, u) then None else Deadline(l, s, v)
  {
  }

  lemma {:induction false} ExpiredInIs(r: RoomId, room: Room, q: seq<UserId>, now: real, s: RoomId, u: UserId)
    ensures (s, u) in ExpiredIn(r, room, q, now) <==>
            s == r && u in q && u in room.members && Lapsed(room.members[u], now)
  {
    hide Lapsed;
    if q != [] {
      ExpiredInIs(r, room, q[1..], now, s, u);
      assert u in q <==> u == q[0] || u in q[1..];
    }
  }

  lemma {:induction false} ExpiredOfIs(l: Lobby, q: seq<RoomId>, now: real, r: RoomId, u: UserId)
    ensures (r, u) in ExpiredOf(l, q, now) <==>
            && r in q && r in l.rooms && u in l.rooms[r].joined
            && u in l.rooms[r].members && Lapsed(l.rooms[r].members[u], now)
  {
    hide Lapsed, ExpiredIn;
    if q != [] {
      ExpiredOfIs(l, q[1..], now, r, u);
      assert r in q <==> r == q[0] || r in q[1..];
      if q[0] in l.rooms { ExpiredInIs(q[0], l.rooms[q[0]], l.rooms[q[0]].joined, now, r, u); }
    }
  }

  /** The scan finds exactly the players whose deadline has come. */
  lemma ExpiredIs(l: Lobby, now: real, r: RoomId, u: UserId)
    requires LobbyOk(l)
    ensures (r, u) in Expired(l, now) <==> Deadline(l, r, u).Some? && Deadline(l, r, u).value <= now
  {
    hide ExpiredOf;
    ExpiredOfIs(l, l.order, now, r, u);
  }

  /** In the list x stands somewhere before y. */
  ghost predicate Earlier<T>(q: seq<T>, x: T, y: T) {
    exists a, b :: 0 <= a < b < |q| && q[a] == x && q[b] == y
  }

  lemma EarlierLater<T>(q: seq<T>, x: T, y: T)
    ensures q != [] && Earlier(q[1..], x, y) ==> Earlier(q, x, y)
    ensures q != [] && q[0] == x && y in q[1..] ==> Earlier(q, x, y)
  {
    if q != [] && Earlier(q[1..], x, y) {
      var a, b :| 0 <= a < b < |q[1..]| && q[1..][a] == x && q[1..][b] == y;
      assert q[a + 1] == x && q[b + 1] == y;
    }
    if q != [] && q[0] == x && y in q[1..] {
      var b :| 0 <= b < |q[1..]| && q[1..][b] == y;
      assert q[b + 1] == y;
    }
  }

  lemma {:induction false} OverdueInRoom(r: RoomId, room: Room, q: seq<UserId>, now: real, i: nat, j: nat)
    requires i < j < |ExpiredIn(r, room, q, now)|
    ensures var c := ExpiredIn(r, room, q, now); c[i].0 == c[j].0 && Earlier(q, c[i].1, c[j].1)
  {
    hide Lapsed, Earlier;
    var c, rest := ExpiredIn(r, room, q, now), ExpiredIn(r, room, q[1..], now);
    var n := |c| - |rest|;
    assert c[j] == rest[j - n] && rest[j - n] in rest;
    EarlierLater(q, c[i].1, c[j].1);
    ExpiredInIs(r, room, q[1..], now, c[j].0, c[j].1);
    if i >= n {
      assert c[i] == rest[i - n];
      OverdueInRoom(r, room, q[1..], now, i - n, j - n);
    }
  }

  lemma {:induction false} OverdueInRooms(l: Lobby, q: seq<RoomId>, now: real, i: nat, j: nat)
    requires i < j < |ExpiredOf(l, q, now)| && forall a, b | 0 <= a < b < |q| :: q[a] != q[b]
    ensures var c := ExpiredOf(l, q, now);
            && c[i].0 in l.rooms
            && if c[i].0 == c[j].0 then Earlier(l.rooms[c[i].0].joined, c[i].1, c[j].1)
               else Earlier(q, c[i].0, c[j].0)
  {
    hide ExpiredIn, Earlier, Lapsed;
    var c, rest := ExpiredOf(l, q, now), ExpiredOf(l, q[1..], now);
    var n := |c| - |rest|;
    assert forall k | 0 <= k < |c| :: (c[k].0, c[k].1) == c[k] && c[k] in c;
    ExpiredOfIs(l, q, now, c[i].0, c[i].1);
    EarlierLater(q, c[i].0, c[j].0);
    if j >= n {
      assert c[j] == rest[j - n];
      ExpiredOfIs(l, q[1..], now, c[j].0, c[j].1);
    }
    if i < n {
      assert c[i] in ExpiredIn(q[0], l.rooms[q[0]], l.rooms[q[0]].joined, now);
      ExpiredInIs(q[0], l.rooms[q[0]], l.rooms[q[0]].joined, now, c[i].0, c[i].1);
      if j < n { OverdueInRoom(q[0], l.rooms[q[0]], l.rooms[q[0]].joined, now, i, j); }
    } else {
      OverdueInRooms(l, q[1..], now, i - n, j - n);
    }
  }

  /** The overdue are listed room by room as the rooms were made, and in a room as its members came. */
  lemma OverdueInOrder(l: Lobby, now: real, i: nat, j: nat)
    requires LobbyOk(l) && i < j < |Expired(l, now)|
    ensures var a, b := Expired(l, now)[i], Expired(l, now)[j];
            && a.0 in l.rooms
            && if a.0 == b.0 then Earlier(l.rooms[a.0].joined, a.1, b.1) else Earlier(l.order, a.0, b.0)
  {
    hide ExpiredOf, Earlier, RoomOk;
    OverdueInRooms(l, l.order, now, i, j);
  }

  /** The first user of room r in the list. */
  function FirstIn(q: seq<(RoomId, UserId)>, r: RoomId): Option<UserId> {
    if q == [] then None else if q[0].0 == r then Some(q[0].1) else FirstIn(q[1..], r)
  }

  lemma {:induction false} FirstInConcat(p: seq<(RoomId, UserId)>, q: seq<(RoomId, UserId)>, r: RoomId)
    ensures FirstIn(p + q, r) == if FirstIn(p, r).Some? then FirstIn(p, r) else FirstIn(q, r)
  {
    if p == [] {
      assert p + q == q;
    } else {
      assert (p + q)[1..] == p[1..] + q;
      FirstInConcat(p[1..], q, r);
    }
  }

  function FirstLapsed(room: Room, q: seq<UserId>, now: real): Option<UserId> {
    if q == [] then None
    else if q[0] in room.members && Lapsed(room.members[q[0]], now) then Some(q[0])
    else FirstLapsed(room, q[1..], now)
  }

  lemma {:induction false} FirstInRoom(r: RoomId, room: Room, q: seq<UserId>, now: real, s: RoomId)
    ensures FirstIn(ExpiredIn(r, room, q, now), s) == if s == r then FirstLapsed(room, q, now) else None
  {
    hide Lapsed;
    if q != [] {
      var rest := ExpiredIn(r, room, q[1..], now);
      FirstInRoom(r, room, q[1..], now, s);
      assert [] + rest == rest && ([(r, q[0])] + rest)[1..] == rest;
    }
  }

  lemma {:induction false} FirstInRooms(l: Lobby, q: seq<RoomId>, now: real, r: RoomId)
    requires r in l.rooms
    ensures FirstIn(ExpiredOf(l, q, now), r)
            == if r in q then FirstLapsed(l.rooms[r], l.rooms[r].joined, now) else None
  {
    hide FirstIn, ExpiredIn, FirstLapsed, Lapsed;
    if q == [] {
      FirstOfNone(r);
    } else {
      FirstInRooms(l, q[1..], now, r);
      assert r in q <==> r == q[0] || r in q[1..];
      if q[0] in l.rooms {
        var room := l.rooms[q[0]];
        FirstInRoom(q[0], room, room.joined, now, r);
        FirstInConcat(ExpiredIn(q[0], room, room.joined, now), ExpiredOf(l, q[1..], now), r);
      } else {
        assert [] + ExpiredOf(l, q[1..], now) == ExpiredOf(l, q[1..], now);
      }
    }
  }

  lemma FirstOfNone(r: RoomId)
    ensures FirstIn([], r) == None
  {
  }

  lemma {:induction false} NoViewerLapses(room: Room, k: nat, now: real)
    requires RoomOk(room) && 2 <= k <= |room.joined|
    ensures FirstLapsed(room, room.joined[k..], now) == None
    decreases |room.joined| - k
  {
    if k < |room.joined| {
      assert room.joined[k..][1..] == room.joined[k + 1..];
      NoViewerLapses(room, k + 1, now);
    }
  }

  predicate SeatLapsed(room: Room, k: nat, now: real) {
    k < |room.joined| && room.joined[k] in room.members && Lapsed(room.members[room.joined[k]], now)
  }

  /** When both players of a room are overdue, white is found first. */
  lemma FirstExpired(l: Lobby, r: RoomId, now: real)
    requires LobbyOk(l) && r in l.rooms
    ensures var room := l.rooms[r];
            FirstIn(Expired(l, now), r)
            == if SeatLapsed(room, 0, now) then Some(room.joined[0])
               else if SeatLapsed(room, 1, now) then Some(room.joined[1])
               else None
  {
    hide FirstIn, ExpiredOf, Lapsed, Seats;
    var room := l.rooms[r];
    FirstInRooms(l, l.order, now, r);
    var q := room.joined;
    if |q| > 1 {
      assert q[1..][1..] == q[2..];
      NoViewerLapses(room, 2, now);
    }
  }
}
