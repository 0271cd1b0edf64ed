/** The seconds that absent players have left, and when the others are told of them. */
module Countdowns {
  import opened Basics
  import opened Rooms

  type Key = (RoomId, UserId)

  datatype Countdown = Countdown(room: RoomId, user: UserId, left: nat) {
    function Key(): Key {
      (room, user)
    }
  }

  function SecondsLeft(deadline: real, now: real): nat {
    if deadline <= now then 0 else (deadline - now).Floor
  }

  function CountdownsIn(r: RoomId, room: Room, q: seq<UserId>, now: real): seq<Countdown> {
    if q == [] then []
    else
      (if q[0] in room.members && !room.members[q[0]].connected && room.members[q[0]].deadline.Some?
       then [Countdown(r, q[0], SecondsLeft(room.members[q[0]].deadline.value, now))] else [])
      + CountdownsIn(r, room, q[1..], now)
  }

  function CountdownsOf(l: Lobby, q: seq<RoomId>, now: real): seq<Countdown> {
    if q == [] then []
    else (if q[0] in l.rooms then CountdownsIn(q[0], l.rooms[q[0]], l.rooms[q[0]].joined, now) else [])
         + CountdownsOf(l, q[1..], now)
  }

  /** The countdowns that are running, room by room and member by member. */
  function Running(l: Lobby, now: real): seq<Countdown> {
    CountdownsOf(l, l.order, now)
  }

  predicate Announced(c: Countdown, sent: map<Key, nat>) {
    c.Key() in sent && sent[c.Key()] == c.left
  }

  /** What is announced: the countdowns whose seconds are not the ones announced last. */
  function Notices(q: seq<Countdown>, sent: map<Key, nat>): seq<Countdown> {
    if q == [] then []
    else (if Announced(q[0], sent) then [] else [q[0]]) + Notices(q[1..], sent[q[0].Key() := q[0].left])
  }

  /** A countdown on its way to the members of the room. */
  datatype Notice = Notice(countdown: Countdown, to: seq<UserId>)

  /** Everyone in the room is told, the absent one included. */
  function Addressed(l: Lobby, q: seq<Countdown>): seq<Notice> {
    if q == [] then []
    else [Notice(q[0], if q[0].room in l.rooms then l.rooms[q[0].room].joined else [])] + Addressed(l, q[1..])
  }

  /** What has then been announced last. */
  function Sent(q: seq<Countdown>, sent: map<Key, nat>): map<Key, nat> {
    if q == [] then sent else Sent(q[1..], sent[q[0].Key() := q[0].left])
  }

  /** One countdown of the list: announced to the room, or passed over. */
  lemma AddressStep(l: Lobby, q: seq<Countdown>, i: nat, sent: map<Key, nat>)
    requires i < |q|
    ensures var c, after := q[i], sent[q[i].Key() := q[i].left];
            && Sent(q[i..], sent) == Sent(q[i + 1..], after)
            && Addressed(l, Notices(q[i..], sent))
               == (if Announced(c, sent) then [] else Addressed(l, [c])) + Addressed(l, Notices(q[i + 1..], after))
  {
    assert q[i..][1..] == q[i + 1..];
    var rest := Notices(q[i + 1..], sent[q[i].Key() := q[i].left]);
    assert Notices(q[i..], sent) == if Announced(q[i], sent) then rest else [q[i]] + rest;
    assert ([q[i]] + rest)[1..] == rest;
  }

  lemma AddressOne(l: Lobby, c: Countdown)
    ensures Addressed(l, [c]) == [Notice(c, if c.room in l.rooms then l.rooms[c.room].joined else [])]
  {
  }

  lemma NoneLeft(l: Lobby, q: seq<Countdown>, sent: map<Key, nat>)
    ensures Addressed(l, Notices(q[|q|..], sent)) == [] && Sent(q[|q|..], sent) == sent
  {
  }

  /** What is announced goes to everyone in the room, the absent player included, and nothing else is sent. */
  lemma {:induction false} AllAreTold(l: Lobby, q: seq<Countdown>, n: Notice)
    requires forall c | c in q :: c.room in l.rooms
    ensures n in Addressed(l, q) <==>
            n.countdown in q && n.countdown.room in l.rooms && n.to == l.rooms[n.countdown.room].joined
  {
    if q != [] {
      assert q == [q[0]] + q[1..];
      AllAreTold(l, q[1..], n);
    }
  }

  ghost predicate DistinctKeys(q: seq<Countdown>) {
    forall i, j | 0 <= i < j < |q| :: q[i].Key() != q[j].Key()
  }

  lemma {:induction false} InRoom(r: RoomId, room: Room, q: seq<UserId>, now: real, c: Countdown)
    ensures c in CountdownsIn(r, room, q, now) <==>
            && c.room == r && c.user in q && c.user in room.members
            && !room.members[c.user].connected && room.members[c.user].deadline.Some?
            && c.left == SecondsLeft(room.members[c.user].deadline.value, now)
  {
    hide SecondsLeft;
    if q != [] {
      InRoom(r, room, q[1..], now, c);
      assert c.user in q <==> c.user == q[0] || c.user in q[1..];
    }
  }

  lemma {:induction false} InRooms(l: Lobby, q: seq<RoomId>, now: real, c: Countdown)
    ensures c in CountdownsOf(l, q, now) <==>
            c.room in q && c.room in l.rooms
            && c in CountdownsIn(c.room, l.rooms[c.room], l.rooms[c.room].joined, now)
  {
    hide CountdownsIn;
    if q != [] {
      InRooms(l, q[1..], now, c);
      assert c.room in q <==> c.room == q[0] || c.room in q[1..];
      if q[0] in l.rooms { InRoom(q[0], l.rooms[q[0]], l.rooms[q[0]].joined, now, c); }
    }
  }

  /** The whole seconds from now to the deadline, and 0 when it has passed. */
  ghost predicate WholeSeconds(deadline: real, now: real, left: nat) {
    if deadline <= now then left == 0 else left as real <= deadline - now < left as real + 1.0
  }

  lemma SecondsAre(deadline: real, now: real, left: nat)
    ensures SecondsLeft(deadline, now) == left <==> WholeSeconds(deadline, now, left)
  {
  }

  /** A countdown runs for exactly the members with a deadline, and shows the whole seconds left. */
  lemma RunningIs(l: Lobby, now: real, c: Countdown)
    requires LobbyOk(l)
    ensures c in Running(l, now) <==>
            var d := Deadline(l, c.room, c.user);
            d.Some? && WholeSeconds(d.value, now, c.left)
  {
    hide SecondsLeft, CountdownsOf, WholeSeconds;
    var d := Deadline(l, c.room, c.user);
    if d.Some? { SecondsAre(d.value, now, c.left); }
    InRooms(l, l.order, now, c);
    if c.room in l.rooms { InRoom(c.room, l.rooms[c.room], l.rooms[c.room].joined, now, c); }
  }

  lemma {:induction false} OrderInRoom(r: RoomId, room: Room, q: seq<UserId>, now: real, i: nat, j: nat)
    requires i < j < |CountdownsIn(r, room, q, now)|
    ensures var c := CountdownsIn(r, room, q, now); c[i].room == c[j].room && Earlier(q, c[i].user, c[j].user)
  {
    hide SecondsLeft, Earlier;
    var c, rest := CountdownsIn(r, room, q, now), CountdownsIn(r, room, q[1..], now);
    var n := |c| - |rest|;
    assert c[j] == rest[j - n] && rest[j - n] in rest;
    EarlierLater(q, c[i].user, c[j].user);
    InRoom(r, room, q[1..], now, c[j]);
    if i >= n {
      assert c[i] == rest[i - n];
      OrderInRoom(r, room, q[1..], now, i - n, j - n);
    }
  }

  lemma {:induction false} OrderInRooms(l: Lobby, q: seq<RoomId>, now: real, i: nat, j: nat)
    requires i < j < |CountdownsOf(l, q, now)| && forall a, b | 0 <= a < b < |q| :: q[a] != q[b]
    ensures var c := CountdownsOf(l, q, now);
            && c[i].room in l.rooms
            && if c[i].room == c[j].room then Earlier(l.rooms[c[i].room].joined, c[i].user, c[j].user)
               else Earlier(q, c[i].room, c[j].room)
  {
    hide CountdownsIn, Earlier;
    var c, rest := CountdownsOf(l, q, now), CountdownsOf(l, q[1..], now);
    var n := |c| - |rest|;
    InRooms(l, q, now, c[i]);
    EarlierLater(q, c[i].room, c[j].room);
    if j >= n {
      assert c[j] == rest[j - n];
      InRooms(l, q[1..], now, c[j]);
    }
    if i < n {
      assert c[i] in CountdownsIn(q[0], l.rooms[q[0]], l.rooms[q[0]].joined, now);
      InRoom(q[0], l.rooms[q[0]], l.rooms[q[0]].joined, now, c[i]);
      if j < n { OrderInRoom(q[0], l.rooms[q[0]], l.rooms[q[0]].joined, now, i, j); }
    } else {
      OrderInRooms(l, q[1..], now, i - n, j - n);
    }
  }

  /** Countdowns are listed room by room as the rooms were made, and in a room as its members came. */
  lemma RunningInOrder(l: Lobby, now: real, i: nat, j: nat)
    requires LobbyOk(l) && i < j < |Running(l, now)|
    ensures var a, b := Running(l, now)[i], Running(l, now)[j];
            && a.room in l.rooms
            && if a.room == b.room then Earlier(l.rooms[a.room].joined, a.user, b.user)
               else Earlier(l.order, a.room, b.room)
  {
    hide CountdownsOf, Earlier, RoomOk;
    OrderInRooms(l, l.order, now, i, j);
  }

  lemma {:induction false} DistinctInRoom(r: RoomId, room: Room, q: seq<UserId>, now: real)
    requires forall i, j | 0 <= i < j < |q| :: q[i] != q[j]
    ensures DistinctKeys(CountdownsIn(r, room, q, now))
  {
    hide SecondsLeft;
    if q != [] {
      DistinctInRoom(r, room, q[1..], now);
      var rest := CountdownsIn(r, room, q[1..], now);
      forall k | 0 <= k < |rest| ensures rest[k].user != q[0] {
        InRoom(r, room, q[1..], now, rest[k]);
      }
    }
  }

  lemma {:induction false} DistinctInRooms(l: Lobby, q: seq<RoomId>, now: real)
    requires forall i, j | 0 <= i < j < |q| :: q[i] != q[j]
    requires forall r | r in l.rooms :: Lists(l.rooms[r].joined, l.rooms[r].members.Keys)
    ensures DistinctKeys(CountdownsOf(l, q, now))
  {
    hide CountdownsIn;
    if q != [] {
      DistinctInRooms(l, q[1..], now);
      var rest := CountdownsOf(l, q[1..], now);
      forall k | 0 <= k < |rest| ensures rest[k].room in q[1..] {
        InRooms(l, q[1..], now, rest[k]);
      }
      if q[0] in l.rooms {
        var room := l.rooms[q[0]];
        var first := CountdownsIn(q[0], room, room.joined, now);
        DistinctInRoom(q[0], room, room.joined, now);
        forall k | 0 <= k < |first| ensures first[k].room == q[0] {
          InRoom(q[0], room, room.joined, now, first[k]);
        }
      }
    }
  }

  lemma RunningDistinct(l: Lobby, now: real)
    requires LobbyOk(l)
    ensures DistinctKeys(Running(l, now))
  {
    hide Seats;
    DistinctInRooms(l, l.order, now);
  }

  lemma {:induction false} NoticesAre(q: seq<Countdown>, sent: map<Key, nat>, c: Countdown)
    requires DistinctKeys(q)
    ensures c in Notices(q, sent) <==> c in q && !Announced(c, sent)
  {
    if q != [] {
      NoticesAre(q[1..], sent[q[0].Key() := q[0].left], c);
      assert c in q <==> c == q[0] || c in q[1..];
      forall k | 0 <= k < |q[1..]| ensures q[1..][k].Key() != q[0].Key() {
        assert q[1..][k] == q[k + 1];
      }
    }
  }

  lemma {:induction false} SentIs(q: seq<Countdown>, sent: map<Key, nat>)
    requires DistinctKeys(q)
    ensures forall c | c in q :: Announced(c, Sent(q, sent))
    ensures forall k | k in sent && (forall c | c in q :: c.Key() != k) ::
              k in Sent(q, sent) && Sent(q, sent)[k] == sent[k]
  {
    if q != [] {
      SentIs(q[1..], sent[q[0].Key() := q[0].left]);
      assert q == [q[0]] + q[1..];
      forall c | c in q[1..] ensures c.Key() != q[0].Key() {
        var k :| 0 <= k < |q[1..]| && q[1..][k] == c;
        assert q[k + 1] == c;
      }
    }
  }

  /** One scan announces exactly the running countdowns whose seconds have changed, and a second scan at
      the same moment announces nothing. */
  lemma AnnouncedOnce(l: Lobby, now: real, sent: map<Key, nat>, c: Countdown)
    requires LobbyOk(l)
    ensures c in Notices(Running(l, now), sent) <==>
            var d := Deadline(l, c.room, c.user);
            && d.Some? && WholeSeconds(d.value, now, c.left)
            && ((c.room, c.user) in sent ==> sent[(c.room, c.user)] != c.left)
    ensures c !in Notices(Running(l, now), Sent(Running(l, now), sent))
  {
    hide LobbyOk, Running, Notices, Sent, Deadline, WholeSeconds;
    var q := Running(l, now);
    RunningDistinct(l, now);
    RunningIs(l, now, c);
    NoticesAre(q, sent, c);
    NoticesAre(q, Sent(q, sent), c);
    SentIs(q, sent);
  }
}
