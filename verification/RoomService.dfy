/** The room service over mutable objects. The ghost field `model` is the lobby as a value; `Valid` ties
    every object to it, and each method is proved to make the model's step. */
module RoomService {
  import opened Basics
  import opened Rooms
  import Countdowns

  /** The number of players among the users of q. */
  function CountIn(value: Room, q: seq<UserId>): nat {
    if q == [] then 0
    else
      var u := q[|q| - 1];
      CountIn(value, q[..|q| - 1]) + if u in value.members && !value.members[u].role.Viewer? then 1 else 0
  }

  function PlayersIn(value: Room, q: seq<UserId>): set<UserId> {
    set u | u in q && u in value.members && !value.members[u].role.Viewer?
  }

  lemma PlayersStep(value: Room, p: seq<UserId>, u: UserId)
    requires u !in p
    ensures |PlayersIn(value, p + [u])|
            == |PlayersIn(value, p)| + if u in value.members && !value.members[u].role.Viewer? then 1 else 0
  {
    if u in value.members && !value.members[u].role.Viewer? {
      assert PlayersIn(value, p + [u]) == PlayersIn(value, p) + {u};
    } else {
      assert PlayersIn(value, p + [u]) == PlayersIn(value, p);
    }
  }

  lemma {:induction false} CountIs(value: Room, q: seq<UserId>)
    requires forall i, j | 0 <= i < j < |q| :: q[i] != q[j]
    ensures CountIn(value, q) == |PlayersIn(value, q)|
  {
    hide PlayersIn;
    if q == [] {
      Nobody(value);
    } else {
      var p, u := q[..|q| - 1], q[|q| - 1];
      assert q == p + [u];
      CountIs(value, p);
      PlayersStep(value, p, u);
    }
  }

  lemma Nobody(value: Room)
    ensures PlayersIn(value, []) == {}
  {
  }

  lemma AllPlayers(value: Room)
    requires Lists(value.joined, value.members.Keys)
    ensures CountIn(value, value.joined) == |Players(value)|
  {
    CountIs(value, value.joined);
    assert PlayersIn(value, value.joined) == Players(value);
  }

  lemma ExpiredStep(r: RoomId, room: Room, i: nat, now: real)
    requires i < |room.joined| && Lists(room.joined, room.members.Keys)
    ensures room.joined[i] in room.members
    ensures ExpiredIn(r, room, room.joined[i..], now)
            == (if Lapsed(room.members[room.joined[i]], now) then [(r, room.joined[i])] else [])
               + ExpiredIn(r, room, room.joined[i + 1..], now)
  {
  }

  lemma CountdownStep(r: RoomId, room: Room, i: nat, now: real)
    requires i < |room.joined| && Lists(room.joined, room.members.Keys)
    ensures room.joined[i] in room.members
    ensures var u := room.joined[i];
            Countdowns.CountdownsIn(r, room, room.joined[i..], now)
            == (if !room.members[u].connected && room.members[u].deadline.Some?
                then [Countdowns.Countdown(r, u, Countdowns.SecondsLeft(room.members[u].deadline.value, now))] else [])
               + Countdowns.CountdownsIn(r, room, room.joined[i + 1..], now)
  {
    hide Countdowns.SecondsLeft;
    assert room.joined[i..][1..] == room.joined[i + 1..];
  }

  lemma CountdownEnd(r: RoomId, room: Room, now: real)
    ensures Countdowns.CountdownsIn(r, room, [], now) == []
  {
  }

  lemma ExpiredEnd(r: RoomId, room: Room, now: real)
    ensures ExpiredIn(r, room, [], now) == []
  {
  }

  class RoomMember {
    const userId: UserId
    const role: Role
    var connected: bool
    var deadline: Option<real>

    constructor (userId: UserId, role: Role)
      ensures this.userId == userId && Data() == Member(role, true, None)
    {
      this.userId, this.role, connected, deadline := userId, role, true, None;
    }

    function Data(): Member
      reads this
    {
      Member(role, connected, deadline)
    }
  }

  class RoomObject {
    const roomId: RoomId
    var members: map<UserId, RoomMember>
    var joined: seq<UserId>
    var eloUpdated: bool
    var gameStarted: bool

    /** The contents of the room and of its members. */
    ghost predicate Is(value: Room)
      reads this, members.Values
    {
      && joined == value.joined && eloUpdated == value.eloUpdated && gameStarted == value.gameStarted
      && members.Keys == value.members.Keys
      && forall u | u in members :: members[u].userId == u && members[u].Data() == value.members[u]
    }

    constructor (roomId: RoomId)
      ensures this.roomId == roomId && Is(EMPTY_ROOM)
    {
      this.roomId, members, joined, eloUpdated, gameStarted := roomId, map[], [], false, false;
    }

    method SetMember(u: UserId, role: Role, ghost value: Room)
      requires Is(value)
      modifies this
      ensures Is(Enter(value, u, role))
      ensures fresh(members.Values - old(members.Values))
    {
      var m := new RoomMember(u, role);
      if u !in members { joined := joined + [u]; }
      members := members[u := m];
    }

    method RemoveMember(u: UserId, ghost value: Room)
      requires Is(value)
      modifies this
      ensures Is(Leave(value, u)) && members == old(members) - {u}
    {
      members := members - {u};
      joined := Without(joined, u);
    }

    method Start(ghost value: Room)
      requires Is(value)
      modifies this`gameStarted
      ensures Is(value.(gameStarted := true))
    {
      gameStarted := true;
    }

    /** A member enters; the first to take a seat starts the game. */
    method Admit(u: UserId, role: Role, ghost value: Room) returns (starts: bool)
      requires Is(value)
      modifies this
      ensures Is(Enter(value, u, role).(gameStarted := value.gameStarted || !role.Viewer?))
      ensures starts <==> !role.Viewer? && !value.gameStarted
      ensures fresh(members.Values - old(members.Values))
    {
      hide Enter;
      EnterKeepsStart(value, u, role);
      SetMember(u, role, value);
      starts := !role.Viewer? && !gameStarted;
      if starts { Start(Enter(value, u, role)); }
    }

    /** Change whether a member is there, and his deadline. */
    method SetStatus(u: UserId, connected: bool, deadline: Option<real>, ghost value: Room)
      requires Is(value) && u in members
      modifies members[u]
      ensures Is(value.(members := value.members[u := value.members[u].(connected := connected, deadline := deadline)]))
    {
      var m := members[u];
      m.connected := connected;
      m.deadline := deadline;
    }

    method MarkEloUpdated(ghost value: Room)
      requires Is(value)
      modifies this`eloUpdated
      ensures Is(value.(eloUpdated := true))
    {
      eloUpdated := true;
    }

    /** The members whose grace is over, in the order of entry. */
    method ExpiredMembers(now: real, ghost value: Room) returns (expired: seq<(RoomId, UserId)>)
      requires Is(value) && Lists(value.joined, value.members.Keys)
      ensures expired == ExpiredIn(roomId, value, value.joined, now)
    {
      hide Lapsed, ExpiredIn;
      expired := [];
      ExpiredEnd(roomId, value, now);
      assert joined[0..] == joined && joined[|joined|..] == [];
      for i := 0 to |joined|
        invariant expired + ExpiredIn(roomId, value, joined[i..], now) == ExpiredIn(roomId, value, joined, now)
      {
        var u := joined[i];
        ExpiredStep(roomId, value, i, now);
        if Lapsed(members[u].Data(), now) { expired := expired + [(roomId, u)]; }
      }
    }

    /** The countdowns of the absent members, in the order of entry. */
    method MemberCountdowns(now: real, ghost value: Room) returns (q: seq<Countdowns.Countdown>)
      requires Is(value) && Lists(value.joined, value.members.Keys)
      ensures q == Countdowns.CountdownsIn(roomId, value, value.joined, now)
    {
      hide Countdowns.CountdownsIn, Countdowns.SecondsLeft;
      q := [];
      CountdownEnd(roomId, value, now);
      assert joined[0..] == joined && joined[|joined|..] == [];
      for i := 0 to |joined|
        invariant q + Countdowns.CountdownsIn(roomId, value, joined[i..], now)
               == Countdowns.CountdownsIn(roomId, value, joined, now)
      {
        var u := joined[i];
        CountdownStep(roomId, value, i, now);
        var m := members[u];
        if !m.connected && m.deadline.Some? {
          q := q + [Countdowns.Countdown(roomId, u, Countdowns.SecondsLeft(m.deadline.value, now))];
        }
      }
    }

    /** Counts the players, one member after the other. */
    method CountPlayers(ghost value: Room) returns (n: nat)
      requires Is(value) && Lists(value.joined, value.members.Keys)
      ensures n == |Players(value)|
    {
      hide Players;
      AllPlayers(value);
      n := 0;
      for i := 0 to |joined|
        invariant n == CountIn(value, joined[..i])
      {
        var u := joined[i];
        assert joined[..i + 1][..i] == joined[..i] && u in value.members;
        if !members[u].role.Viewer? { n := n + 1; }
      }
      assert joined[..|joined|] == joined;
    }

    /** The last white and the last black member, as a scan over the members finds them. */
    method FindPlayers(ghost value: Room) returns (white: Option<UserId>, black: Option<UserId>)
      requires Is(value) && Lists(value.joined, value.members.Keys)
      ensures white == HolderIn(value, value.joined, WhiteSeat)
      ensures black == HolderIn(value, value.joined, BlackSeat)
    {
      white, black := None, None;
      for i := 0 to |joined|
        invariant white == HolderIn(value, joined[..i], WhiteSeat)
        invariant black == HolderIn(value, joined[..i], BlackSeat)
      {
        var u := joined[i];
        assert joined[..i + 1][..i] == joined[..i] && u in value.members;
        if members[u].role.WhiteSeat? {
          white := Some(u);
        } else if members[u].role.BlackSeat? {
          black := Some(u);
        }
      }
      assert joined[..|joined|] == joined;
    }
  }

  class RoomService {
    var rooms: map<RoomId, RoomObject>
    var order: seq<RoomId>
    var userRoom: map<UserId, RoomId>
    ghost var model: Lobby

    ghost function People(): set<RoomMember>
      reads this`rooms, rooms.Values`members
    {
      set r, u | r in rooms && u in rooms[r].members :: rooms[r].members[u]
    }

    /** All the rooms and their members. */
    ghost function Objects(): set<object>
      reads this`rooms, rooms.Values`members
    {
      rooms.Values + People()
    }

    ghost predicate Tied()
      reads this, rooms.Values, People()
    {
      && userRoom == model.userRoom && order == model.order && rooms.Keys == model.rooms.Keys
      && forall r | r in rooms :: rooms[r].roomId == r && rooms[r].Is(model.rooms[r])
    }

    ghost predicate Valid()
      reads this, rooms.Values, People()
    {
      Tied() && LobbyOk(model)
    }

    constructor ()
      ensures Valid() && model == EMPTY_LOBBY && rooms == map[]
    {
      rooms, order, userRoom, model := map[], [], map[], EMPTY_LOBBY;
    }

    /** Store a finished room under its name. */
    method SetRoom(room: RoomObject, ghost value: Room)
      requires Tied() && room !in rooms.Values && room.Is(value)
      modifies this`rooms, this`order, this`model
      ensures Tied() && model == PutRoom(old(model), room.roomId, value)
      ensures rooms == old(rooms)[room.roomId := room]
    {
      if room.roomId !in rooms { order := order + [room.roomId]; }
      rooms := rooms[room.roomId := room];
      model := PutRoom(model, room.roomId, value);
    }

    method SetUserRoom(u: UserId, r: RoomId)
      requires Tied()
      modifies this`userRoom, this`model
      ensures Tied() && model == old(model).(userRoom := old(model).userRoom[u := r])
    {
      userRoom := userRoom[u := r];
      model := model.(userRoom := userRoom);
    }

    static method NewRoom(u: UserId, id: RoomId) returns (room: RoomObject)
      ensures fresh(room) && room.roomId == id && room.Is(Enter(EMPTY_ROOM, u, WhiteSeat).(gameStarted := true))
    {
      hide Enter;
      room := new RoomObject(id);
      room.SetMember(u, WhiteSeat, EMPTY_ROOM);
      room.Start(Enter(EMPTY_ROOM, u, WhiteSeat));
    }

    /** The room id is a random one; if it is taken, the old room is replaced, and its members are lost. */
    method CreateRoom(creator: UserId, id: RoomId) returns (refused: Option<Refusal>)
      requires Valid()
      modifies this
      ensures Tied() && model == Rooms.CreateRoom(old(model), creator, id)
      ensures refused == Creatable(old(model), creator)
      ensures Valid() <==> refused.Some? || id !in old(rooms)
    {
      hide LobbyOk, Enter, PutRoom;
      CreateKeeps(model, creator, id);
      if creator in userRoom { return Some(AlreadyInRoom); }
      var room := NewRoom(creator, id);
      SetRoom(room, Enter(EMPTY_ROOM, creator, WhiteSeat).(gameStarted := true));
      SetUserRoom(creator, id);
      return None;
    }

    static method NewMatchedRoom(a: UserId, b: UserId, id: RoomId) returns (room: RoomObject)
      ensures fresh(room) && room.roomId == id && room.Is(MatchedRoom(a, b))
      ensures fresh(room.members.Values)
    {
      hide Enter;
      room := new RoomObject(id);
      room.SetMember(a, WhiteSeat, EMPTY_ROOM);
      ghost var value := Enter(EMPTY_ROOM, a, WhiteSeat);
      room.SetMember(b, BlackSeat, value);
      value := Enter(value, b, BlackSeat);
      room.Start(value);
    }

    twostate lemma OnlyNewObjects(id: RoomId, new room: RoomObject)
      requires rooms == old(rooms)[id := room] && fresh(room) && fresh(room.members.Values)
      requires forall r | r in old(rooms) :: old(rooms)[r].members == old(rooms[r].members)
      ensures forall o | o in Objects() :: o in old(Objects()) || fresh(o)
    {
      forall o | o in Objects() ensures o in old(Objects()) || fresh(o) {
        if o in rooms.Values {
          var r :| r in rooms && rooms[r] == o;
          if r != id { assert o in old(rooms.Values); }
        } else {
          var r, u :| r in rooms && u in rooms[r].members && rooms[r].members[u] == o;
          if r == id {
            assert o in room.members.Values;
          } else {
            assert old(rooms)[r] == rooms[r];
            assert o in old(People());
          }
        }
      }
    }

    method CreateMatchedRoom(a: UserId, b: UserId, id: RoomId) returns (refused: Option<Refusal>)
      requires Valid()
      modifies this
      ensures Tied() && model == Rooms.CreateMatchedRoom(old(model), a, b, id)
      ensures refused == Matchable(old(model), a, b, id)
      ensures Valid() <==> refused.Some? || a != b
      ensures forall o | o in Objects() :: o in old(Objects()) || fresh(o)
    {
      hide LobbyOk, MatchedRoom, PutRoom, Objects;
      CreateMatchedKeeps(model, a, b, id);
      if a in userRoom { return Some(AlreadyInRoom); }
      if b in userRoom { return Some(AlreadyInRoom); }
      if id in rooms { return Some(RoomExists); }
      var room := NewMatchedRoom(a, b, id);
      SetRoom(room, MatchedRoom(a, b));
      SetUserRoom(a, id);
      SetUserRoom(b, id);
      OnlyNewObjects(id, room);
      return None;
    }

    /** Every room but r agrees with the model. */
    ghost predicate TiedBut(r: RoomId)
      reads this, rooms.Values, People()
    {
      && userRoom == model.userRoom && order == model.order && rooms.Keys == model.rooms.Keys && r in rooms
      && forall s | s in rooms :: rooms[s].roomId == s && (s != r ==> rooms[s].Is(model.rooms[s]))
    }

    /** Let the model follow a change of one room. */
    ghost method Adopt(r: RoomId, value: Room)
      requires TiedBut(r) && rooms[r].Is(value)
      modifies this`model
      ensures Tied() && model == PutRoom(old(model), r, value)
    {
      model := PutRoom(model, r, value);
    }

    lemma MemberIndexed(u: UserId, r: RoomId)
      requires Valid()
      ensures r in rooms && u in rooms[r].members <==> u in userRoom && userRoom[u] == r
    {
      hide Lists, RoomOk;
      assert IsMember(model, u, r) <==> u in model.userRoom && model.userRoom[u] == r;
    }

    /** No member object is in two rooms. */
    lemma Apart(u: UserId, r: RoomId)
      requires Valid() && r in rooms && u in rooms[r].members
      ensures forall s | s in rooms && s != r :: rooms[r].members[u] !in rooms[s].members.Values
    {
      hide LobbyOk;
      MemberIndexed(u, r);
      forall s | s in rooms && s != r ensures rooms[r].members[u] !in rooms[s].members.Values {
        MemberIndexed(u, s);
        assert rooms[r].Is(model.rooms[r]) && rooms[s].Is(model.rooms[s]);
      }
    }

    /** Nobody new is in the room yet. */
    method JoinRoom(r: RoomId, u: UserId) returns (refused: Option<Refusal>, role: Role, starts: bool)
      requires Valid()
      modifies this, rooms.Values
      ensures Valid() && model == Rooms.JoinRoom(old(model), u, r) && rooms == old(rooms)
      ensures refused == Joinable(old(model), u, r)
      ensures refused.None? ==> role == NextRole(old(model).rooms[r])
      ensures starts <==> refused.None? && !role.Viewer? && !old(model).rooms[r].gameStarted
    {
      hide LobbyOk, Enter, PutRoom, Players;
      JoinKeeps(model, u, r);
      role, starts := Viewer, false;
      if r !in rooms { return Some(RoomNotFound), role, starts; }
      if u in userRoom { return Some(AlreadyInRoom), role, starts; }
      ghost var value := model.rooms[r];
      RoomListed(model, r);
      var n := rooms[r].CountPlayers(value);
      if n == 0 { role := WhiteSeat; } else if n == 1 { role := BlackSeat; }
      starts := Admit(r, u, role);
      SetUserRoom(u, r);
      return None, role, starts;
    }

    /** The accepted half of joining a room. */
    method Admit(r: RoomId, u: UserId, role: Role) returns (starts: bool)
      requires Tied() && r in rooms
      modifies this`model, rooms.Values
      ensures Tied()
      ensures starts <==> !role.Viewer? && !old(model).rooms[r].gameStarted
      ensures var value := old(model).rooms[r];
              model == PutRoom(old(model), r, Enter(value, u, role).(gameStarted := value.gameStarted || !role.Viewer?))
    {
      hide Enter;
      ghost var value := model.rooms[r];
      starts := rooms[r].Admit(u, role, value);
      Adopt(r, Enter(value, u, role).(gameStarted := value.gameStarted || !role.Viewer?));
    }

    method PopUserRoom(u: UserId)
      requires Tied()
      modifies this`userRoom, this`model
      ensures Tied() && model == old(model).(userRoom := old(model).userRoom - {u})
    {
      userRoom := userRoom - {u};
      model := model.(userRoom := userRoom);
    }

    method TakeOut(r: RoomId, u: UserId)
      requires Tied() && r in rooms
      modifies this`model, rooms.Values
      ensures Tied() && model == PutRoom(old(model), r, Leave(old(model).rooms[r], u))
    {
      hide Leave;
      ghost var value := model.rooms[r];
      rooms[r].RemoveMember(u, value);
      Adopt(r, Leave(value, u));
    }

    /** The room the user keeps a seat in, if he has one; a viewer is taken out of his room. */
    method MarkDisconnected(u: UserId, now: real) returns (room: Option<RoomId>)
      requires Valid()
      modifies this, rooms.Values, People()
      ensures Valid() && model == Rooms.MarkDisconnected(old(model), u, now) && rooms == old(rooms)
      ensures room == if u in old(model).userRoom && IsPlayer(old(model), u, old(model).userRoom[u])
                      then Some(old(model).userRoom[u]) else None
    {
      hide LobbyOk, Leave, PutRoom;
      DisconnectKeeps(model, u, now);
      if u !in userRoom { return None; }
      var r := userRoom[u];
      MemberIndexed(u, r);
      ghost var value := model.rooms[r];
      var place := rooms[r];
      Apart(u, r);
      if place.members[u].role.Viewer? {
        TakeOut(r, u);
        PopUserRoom(u);
        return None;
      }
      place.SetStatus(u, false, Some(now + DISCONNECT_GRACE_SECONDS), value);
      ghost var m := value.members[u].(connected := false, deadline := Some(now + DISCONNECT_GRACE_SECONDS));
      Adopt(r, value.(members := value.members[u := m]));
      return Some(r);
    }

    method Reconnect(u: UserId) returns (room: Option<RoomId>)
      requires Valid()
      modifies this`model, People()
      ensures Valid() && model == Rooms.Reconnect(old(model), u)
      ensures room == if u in old(model).userRoom then Some(old(model).userRoom[u]) else None
    {
      hide LobbyOk, PutRoom;
      ReconnectKeeps(model, u);
      if u !in userRoom { return None; }
      var r := userRoom[u];
      MemberIndexed(u, r);
      ghost var value := model.rooms[r];
      Apart(u, r);
      rooms[r].SetStatus(u, true, None, value);
      Adopt(r, value.(members := value.members[u := value.members[u].(connected := true, deadline := None)]));
      return Some(r);
    }

    method ClearDisconnectDeadline(r: RoomId, u: UserId)
      requires Valid()
      modifies this`model, People()
      ensures Valid() && model == ClearDeadline(old(model), r, u)
    {
      hide LobbyOk, PutRoom;
      ClearKeeps(model, r, u);
      if r !in rooms { return; }
      if u !in rooms[r].members { return; }
      ghost var value := model.rooms[r];
      Apart(u, r);
      rooms[r].SetStatus(u, rooms[r].members[u].connected, None, value);
      Adopt(r, value.(members := value.members[u := value.members[u].(deadline := None)]));
    }

    method MarkEloUpdated(r: RoomId)
      requires Valid()
      modifies this`model, rooms.Values`eloUpdated
      ensures Valid() && model == Rooms.MarkEloUpdated(old(model), r)
    {
      hide LobbyOk, PutRoom;
      MarkKeeps(model, r);
      if r in rooms {
        ghost var value := model.rooms[r];
        rooms[r].MarkEloUpdated(value);
        Adopt(r, value.(eloUpdated := true));
      }
    }

    /** The members of a room, in the order of entry. */
    method GetMembers(r: RoomId) returns (users: seq<UserId>)
      requires Valid()
      ensures users == if r in model.rooms then model.rooms[r].joined else []
    {
      hide LobbyOk;
      return if r in rooms then rooms[r].joined else [];
    }

    method IsEloUpdated(r: RoomId) returns (updated: bool)
      requires Valid()
      ensures updated <==> r in model.rooms && model.rooms[r].eloUpdated
    {
      hide LobbyOk;
      updated := r in rooms && rooms[r].eloUpdated;
    }

    method GetMemberRole(r: RoomId, u: UserId) returns (role: Option<Role>)
      requires Valid()
      ensures role == if IsMember(model, u, r) then Some(model.rooms[r].members[u].role) else None
    {
      hide LobbyOk;
      if r !in rooms || u !in rooms[r].members { return None; }
      return Some(rooms[r].members[u].role);
    }

    method GetRoomPlayers(r: RoomId) returns (white: Option<UserId>, black: Option<UserId>)
      requires Valid()
      ensures white == Holder(model, r, WhiteSeat) && black == Holder(model, r, BlackSeat)
    {
      hide LobbyOk, HolderIn;
      if r !in rooms { return None, None; }
      RoomListed(model, r);
      white, black := rooms[r].FindPlayers(model.rooms[r]);
    }

    method DisconnectCountdowns(now: real) returns (q: seq<Countdowns.Countdown>)
      requires Valid()
      ensures q == Countdowns.Running(model, now)
    {
      hide LobbyOk, Countdowns.CountdownsIn;
      OrderListed(model);
      q := [];
      assert order[0..] == order;
      for i := 0 to |order|
        invariant q + Countdowns.CountdownsOf(model, order[i..], now) == Countdowns.Running(model, now)
      {
        var r := order[i];
        assert order[i..][1..] == order[i + 1..] && r in rooms;
        RoomListed(model, r);
        var more := rooms[r].MemberCountdowns(now, model.rooms[r]);
        q := q + more;
      }
      assert order[|order|..] == [];
    }

    method ExpiredDisconnects(now: real) returns (expired: seq<(RoomId, UserId)>)
      requires Valid()
      ensures expired == Expired(model, now)
    {
      hide LobbyOk, ExpiredIn;
      OrderListed(model);
      expired := [];
      assert order[0..] == order;
      for i := 0 to |order|
        invariant expired + ExpiredOf(model, order[i..], now) == Expired(model, now)
      {
        var r := order[i];
        assert order[i..][1..] == order[i + 1..] && r in rooms;
        RoomListed(model, r);
        var found := rooms[r].ExpiredMembers(now, model.rooms[r]);
        expired := expired + found;
      }
      assert order[|order|..] == [];
    }
  }

  lemma EnterKeepsStart(room: Room, u: UserId, role: Role)
    ensures Enter(room, u, role).gameStarted == room.gameStarted
  {
  }

  lemma RoomListed(l: Lobby, r: RoomId)
    requires LobbyOk(l) && r in l.rooms
    ensures Lists(l.rooms[r].joined, l.rooms[r].members.Keys)
  {
  }

  lemma OrderListed(l: Lobby)
    requires LobbyOk(l)
    ensures forall i | 0 <= i < |l.order| :: l.order[i] in l.rooms
  {
  }
}
