/** The matchmaking queue of a running server. Clock readings and ratings are passed in. */
module MatchmakingService {
  import opened Basics
  import opened Matchmaking
  import MatchingLaws

  predicate TimedOut(e: QueueEntry, now: real) {
    now - e.enqueuedAt >= QUEUE_TIMEOUT_SECONDS
  }

  /** Whoever has waited for 60 seconds has waited too long. */
  lemma MinuteIs(e: QueueEntry, now: real)
    ensures TimedOut(e, now) <==> e.enqueuedAt + 60.0 <= now
  {
  }

  /** The entries of q still within their minute, in order. */
  function Waiting(q: seq<QueueEntry>, now: real): seq<QueueEntry> {
    if q == [] then [] else (if TimedOut(q[0], now) then [] else [q[0]]) + Waiting(q[1..], now)
  }

  /** The users told that their minute is over, in order. */
  function Expired(q: seq<QueueEntry>, now: real): seq<UserId> {
    if q == [] then [] else (if TimedOut(q[0], now) then [q[0].userId] else []) + Expired(q[1..], now)
  }

  lemma {:induction false} WaitingIs(q: seq<QueueEntry>, now: real)
    ensures forall e :: e in Waiting(q, now) <==> e in q && !TimedOut(e, now)
    ensures DistinctUsers(q) ==> DistinctUsers(Waiting(q, now))
  {
    hide TimedOut;
    if q != [] {
      assert q == [q[0]] + q[1..];
      WaitingIs(q[1..], now);
      var w := Waiting(q[1..], now);
      if DistinctUsers(q) {
        forall i | 0 <= i < |w| ensures w[i].userId != q[0].userId {
          assert w[i] in q[1..];
        }
      }
    }
  }

  lemma {:induction false} ToldOnce(q: seq<QueueEntry>, now: real)
    ensures forall u :: u in Expired(q, now) <==> exists e :: e in q && e.userId == u && TimedOut(e, now)
  {
    hide TimedOut;
    if q != [] {
      assert q == [q[0]] + q[1..];
      ToldOnce(q[1..], now);
    }
  }

  lemma {:induction false} FewerWaiting(q: seq<QueueEntry>, now: real)
    ensures |Waiting(q, now)| <= |q|
  {
    if q != [] { FewerWaiting(q[1..], now); }
  }

  lemma {:induction false} UnusedIs(q: seq<QueueEntry>, used: set<UserId>)
    ensures forall e :: e in Unused(q, used) <==> e in q && e.userId !in used
    ensures DistinctUsers(q) ==> DistinctUsers(Unused(q, used))
  {
    if q != [] {
      assert q == [q[0]] + q[1..];
      UnusedIs(q[1..], used);
      var w := Unused(q[1..], used);
      if DistinctUsers(q) {
        forall i | 0 <= i < |w| ensures w[i].userId != q[0].userId {
          assert w[i] in q[1..];
        }
      }
    }
  }

  lemma ExpireStep(q: seq<QueueEntry>, i: nat, now: real)
    requires i < |q|
    ensures Waiting(q[i..], now) == (if TimedOut(q[i], now) then [] else [q[i]]) + Waiting(q[i + 1..], now)
    ensures Expired(q[i..], now) == (if TimedOut(q[i], now) then [q[i].userId] else []) + Expired(q[i + 1..], now)
  {
  }

  lemma ExpireEnd(q: seq<QueueEntry>, now: real)
    ensures Waiting(q[|q|..], now) == [] && Expired(q[|q|..], now) == []
  {
  }

  /** After a tick: everyone still queued has waited less than a minute and fits nobody else in the
      queue; everyone paired was within the minute too; and with the expired they make up the queue. */
  lemma TickLaws(q: seq<QueueEntry>, now: real)
    requires DistinctUsers(q)
    ensures var w := Waiting(q, now);
            && (forall e | e in Leftover(w) || e in Members(Pairs(w)) :: e in q && now < e.enqueuedAt + 60.0)
            && (forall e | e in q && now < e.enqueuedAt + 60.0 :: e in Leftover(w) || e in Members(Pairs(w)))
            && (forall u :: u in Expired(q, now) <==>
                              exists e :: e in q && e.userId == u && e.enqueuedAt + 60.0 <= now)
            && (forall i, j | 0 <= i < j < |Leftover(w)| :: MatchingLaws.FarApart(Leftover(w)[i], Leftover(w)[j]))
            && (forall p | p in Pairs(w) :: -100 <= p.white.elo - p.black.elo <= 100)
            && DistinctUsers(Members(Pairs(w)))
  {
    hide Compatible, TimedOut, Expired;
    forall e ensures TimedOut(e, now) <==> e.enqueuedAt + 60.0 <= now { MinuteIs(e, now); }
    ToldOnce(q, now);
    var w := Waiting(q, now);
    WaitingIs(q, now);
    MatchingLaws.FromQueue(w);
    MatchingLaws.Maximal(w);
    MatchingLaws.PairsCompatible(w);
    MatchingLaws.PairsDisjoint(w);
    MatchingLaws.Conservation(w);
    forall e | e in q && now < e.enqueuedAt + 60.0 ensures e in Leftover(w) || e in Members(Pairs(w)) {
      assert e in multiset(w);
    }
  }

  class MatchmakingService {
    var queue: seq<QueueEntry>

    /** Nobody is queued twice. */
    ghost predicate Valid()
      reads this
    {
      DistinctUsers(queue)
    }

    constructor ()
      ensures Valid() && queue == []
    {
      queue := [];
    }

    method IsQueued(userId: UserId) returns (found: bool)
      ensures found <==> exists e :: e in queue && e.userId == userId
    {
      for i := 0 to |queue|
        invariant forall j | 0 <= j < i :: queue[j].userId != userId
      {
        if queue[i].userId == userId { return true; }
      }
      return false;
    }

    method Enqueue(userId: UserId, elo: int, now: real) returns (queued: bool)
      requires Valid()
      modifies this
      ensures Valid()
      ensures !queued <==> exists e :: e in old(queue) && e.userId == userId
      ensures queue == if queued then old(queue) + [QueueEntry(userId, elo, now)] else old(queue)
    {
      var found := IsQueued(userId);
      if found { return false; }
      queue := queue + [QueueEntry(userId, elo, now)];
      return true;
    }

    method Cancel(userId: UserId) returns (cancelled: bool)
      requires Valid()
      modifies this
      ensures Valid() && queue == Unused(old(queue), {userId})
      ensures cancelled <==> exists e :: e in old(queue) && e.userId == userId
    {
      cancelled := IsQueued(userId);
      UnusedIs(queue, {userId});
      queue := RemoveUsers({userId});
    }

    method RemoveUsers(users: set<UserId>) returns (kept: seq<QueueEntry>)
      ensures kept == Unused(queue, users)
    {
      kept := [];
      assert queue[..0] == [];
      for i := 0 to |queue|
        invariant kept == Unused(queue[..i], users)
      {
        UnusedStep(queue, i, users);
        if queue[i].userId !in users { kept := kept + [queue[i]]; }
      }
      assert queue[..|queue|] == queue;
    }

    method ExpireTimeouts(now: real) returns (expired: seq<UserId>)
      requires Valid()
      modifies this
      ensures Valid() && queue == Waiting(old(queue), now) && expired == Expired(old(queue), now)
    {
      hide TimedOut, Waiting, Expired;
      expired := [];
      var still: seq<QueueEntry> := [];
      assert queue[0..] == queue;
      for i := 0 to |queue|
        invariant queue == old(queue)
        invariant expired + Expired(queue[i..], now) == Expired(queue, now)
        invariant still + Waiting(queue[i..], now) == Waiting(queue, now)
      {
        ExpireStep(queue, i, now);
        if TimedOut(queue[i], now) {
          expired := expired + [queue[i].userId];
        } else {
          still := still + [queue[i]];
        }
      }
      ExpireEnd(queue, now);
      assert still == Waiting(queue, now) && expired == Expired(queue, now);
      WaitingIs(queue, now);
      queue := still;
    }

    method Drop(users: set<UserId>)
      requires Valid()
      modifies this
      ensures Valid() && queue == Unused(old(queue), users)
    {
      UnusedIs(queue, users);
      queue := RemoveUsers(users);
    }

    /** The pass of the separate matchmaker, which takes a snapshot and leaves the rooms to others: the pairs
        are announced, the others stay in order. */
    method TryMatch() returns (pairs: seq<Pair>)
      requires Valid()
      modifies this
      ensures Valid() && pairs == Pairs(old(queue)) && queue == Leftover(old(queue))
    {
      var used;
      pairs, used := MatchPass(queue);
      Drop(used);
    }

    method Tick(now: real) returns (expired: seq<UserId>, pairs: seq<Pair>)
      requires Valid()
      modifies this
      ensures Valid() && expired == Expired(old(queue), now)
      ensures pairs == Pairs(Waiting(old(queue), now)) && queue == Leftover(Waiting(old(queue), now))
    {
      expired := ExpireTimeouts(now);
      pairs := TryMatch();
    }
  }
}
