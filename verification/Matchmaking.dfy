/** Greedy matchmaking by rating. The index loop with its set of used players is proved to produce the
    same pairs as a two-line recursion, about which the rest is proved. */
module Matchmaking {
  import opened Basics

  const ELO_WINDOW := 100
  const QUEUE_TIMEOUT_SECONDS := 60.0

  datatype QueueEntry = QueueEntry(userId: UserId, elo: int, enqueuedAt: real)

  datatype Pair = Pair(white: QueueEntry, black: QueueEntry)

  predicate Compatible(a: QueueEntry, b: QueueEntry) {
    Abs(a.elo - b.elo) <= ELO_WINDOW
  }

  ghost predicate DistinctUsers(q: seq<QueueEntry>) {
    forall i, j | 0 <= i < j < |q| :: q[i].userId != q[j].userId
  }

  // ---- the recursion ----

  /** The position in q of the first entry compatible with a, or |q|. */
  function FirstFor(a: QueueEntry, q: seq<QueueEntry>): nat {
    if q == [] || Compatible(a, q[0]) then 0 else 1 + FirstFor(a, q[1..])
  }

  lemma {:induction false} FirstForIs(a: QueueEntry, q: seq<QueueEntry>)
    ensures FirstFor(a, q) <= |q|
    ensures FirstFor(a, q) < |q| ==> Compatible(a, q[FirstFor(a, q)])
    ensures forall i | 0 <= i < FirstFor(a, q) :: !Compatible(a, q[i])
  {
    if q != [] && !Compatible(a, q[0]) { FirstForIs(a, q[1..]); }
  }

  function Without(q: seq<QueueEntry>, k: nat): seq<QueueEntry>
    requires k < |q|
  {
    q[..k] + q[k + 1..]
  }

  /** Pair the head with the first later entry in its window, drop both, repeat. */
  function Pairs(q: seq<QueueEntry>): seq<Pair>
    decreases |q|
  {
    if q == [] then []
    else
      var k := FirstFor(q[0], q[1..]);
      if k >= |q| - 1 then Pairs(q[1..])
      else [Pair(q[0], q[1 + k])] + Pairs(Without(q[1..], k))
  }

  /** Who is left over. */
  function Leftover(q: seq<QueueEntry>): seq<QueueEntry>
    decreases |q|
  {
    if q == [] then []
    else
      var k := FirstFor(q[0], q[1..]);
      if k >= |q| - 1 then [q[0]] + Leftover(q[1..])
      else Leftover(Without(q[1..], k))
  }

  function Members(ps: seq<Pair>): seq<QueueEntry> {
    if ps == [] then [] else [ps[0].white, ps[0].black] + Members(ps[1..])
  }

  // ---- the loop ----

  /** The entries of q whose users are not used, in order. */
  function Unused(q: seq<QueueEntry>, used: set<UserId>): seq<QueueEntry> {
    if q == [] then []
    else (if q[0].userId in used then [] else [q[0]]) + Unused(q[1..], used)
  }

  lemma {:induction false} UnusedConcat(p: seq<QueueEntry>, q: seq<QueueEntry>, used: set<UserId>)
    ensures Unused(p + q, used) == Unused(p, used) + Unused(q, used)
  {
    if p == [] {
      assert p + q == q;
    } else {
      assert (p + q)[1..] == p[1..] + q;
      UnusedConcat(p[1..], q, used);
    }
  }

  /** Using up users who are not in q changes nothing. */
  lemma {:induction false} UnusedOthers(q: seq<QueueEntry>, used: set<UserId>, more: set<UserId>)
    requires forall e | e in q :: e.userId !in more
    ensures Unused(q, used + more) == Unused(q, used)
  {
    if q != [] { UnusedOthers(q[1..], used, more); }
  }

  lemma {:induction false} UnusedNone(q: seq<QueueEntry>)
    ensures Unused(q, {}) == q
  {
    if q != [] { UnusedNone(q[1..]); }
  }

  /** The inner loop: the first unused entry from index i + 1 on in a's window. */
  method FindMatch(q: seq<QueueEntry>, i: nat, used: set<UserId>) returns (j: nat)
    requires i < |q|
    ensures i < j <= |q|
    ensures j < |q| ==> q[j].userId !in used && Compatible(q[i], q[j])
    ensures forall k | i < k < j :: q[k].userId in used || !Compatible(q[i], q[k])
  {
    for k := i + 1 to |q|
      invariant forall l | i < l < k :: q[l].userId in used || !Compatible(q[i], q[l])
    {
      if q[k].userId in used { continue; }
      if Compatible(q[i], q[k]) { return k; }
    }
    return |q|;
  }

  /** What the inner loop finds is what the recursion finds among the unused entries. */
  lemma {:induction false} FirstUnused(a: QueueEntry, q: seq<QueueEntry>, used: set<UserId>, j: nat)
    requires j <= |q|
    requires j < |q| ==> q[j].userId !in used && Compatible(a, q[j])
    requires forall k | 0 <= k < j :: q[k].userId in used || !Compatible(a, q[k])
    ensures FirstFor(a, Unused(q, used)) == |Unused(q[..j], used)| <= |Unused(q, used)|
    ensures j < |q| <==> |Unused(q[..j], used)| < |Unused(q, used)|
  {
    if j == 0 {
      assert q[..0] == [];
    } else {
      assert q[..j][1..] == q[1..][..j - 1];
      assert ([q[0]] + Unused(q[1..], used))[1..] == Unused(q[1..], used);
      assert q[0].userId in used ==> Unused(q, used) == Unused(q[1..], used);
      assert q[0].userId in used ==> Unused(q[..j], used) == Unused(q[1..][..j - 1], used);
      FirstUnused(a, q[1..], used, j - 1);
    }
  }

  lemma UnusedMiddle(left: seq<QueueEntry>, x: QueueEntry, right: seq<QueueEntry>, used: set<UserId>)
    ensures var here := if x.userId in used then [] else [x];
            Unused(left + [x] + right, used) == Unused(left, used) + here + Unused(right, used)
  {
    UnusedConcat(left + [x], right, used);
    UnusedConcat(left, [x], used);
    assert [x][1..] == [];
  }

  /** Using up one entry of a list, and others who are not in it, takes out that entry. */
  lemma UseAmong(left: seq<QueueEntry>, x: QueueEntry, right: seq<QueueEntry>, used: set<UserId>, more: set<UserId>)
    requires x.userId !in used && x.userId in more
    requires forall e: QueueEntry | e in left || e in right :: e.userId !in more
    ensures Unused(left + [x] + right, used) == Unused(left, used) + [x] + Unused(right, used)
    ensures Unused(left + [x] + right, used + more) == Unused(left, used) + Unused(right, used)
  {
    hide Unused;
    UnusedMiddle(left, x, right, used);
    UnusedMiddle(left, x, right, used + more);
    UnusedOthers(left, used, more);
    UnusedOthers(right, used, more);
  }

  /** After a match at j, the unused entries are the old ones without that one. */
  lemma UseOne(q: seq<QueueEntry>, used: set<UserId>, i: nat, j: nat)
    requires DistinctUsers(q) && i < j < |q| && q[j].userId !in used
    ensures var rest, n := q[i + 1..], |Unused(q[i + 1..j], used)|;
            && n < |Unused(rest, used)|
            && Unused(rest, used)[n] == q[j]
            && Unused(rest, used + {q[i].userId, q[j].userId}) == Without(Unused(rest, used), n)
  {
    hide Unused;
    var rest, left, right := q[i + 1..], q[i + 1..j], q[j + 1..];
    var more := {q[i].userId, q[j].userId};
    assert rest == left + [q[j]] + right;
    assert forall k | 0 <= k < |left| :: left[k] == q[i + 1 + k];
    assert forall k | 0 <= k < |right| :: right[k] == q[j + 1 + k];
    UseAmong(left, q[j], right, used, more);
  }

  lemma UnusedStep(q: seq<QueueEntry>, i: nat, used: set<UserId>)
    requires i < |q|
    ensures var here := if q[i].userId in used then [] else [q[i]];
            && Unused(q[i..], used) == here + Unused(q[i + 1..], used)
            && Unused(q[..i + 1], used) == Unused(q[..i], used) + here
    ensures q[i].userId in used ==>
            Unused(q[i..], used) == Unused(q[i + 1..], used) && Unused(q[..i + 1], used) == Unused(q[..i], used)
  {
    assert q[i..][1..] == q[i + 1..];
    assert q[..i + 1] == q[..i] + [q[i]] && [q[i]][1..] == [];
    UnusedConcat(q[..i], [q[i]], used);
  }

  /** One step of the recursion when the head finds a partner. */
  lemma HeadPaired(a: QueueEntry, rest: seq<QueueEntry>, k: nat)
    requires FirstFor(a, rest) == k < |rest|
    ensures Pairs([a] + rest) == [Pair(a, rest[k])] + Pairs(Without(rest, k))
    ensures Leftover([a] + rest) == Leftover(Without(rest, k))
  {
    hide Compatible, Without;
    assert ([a] + rest)[1..] == rest;
  }

  /** The head of the unused entries finds no partner. */
  lemma StepNoMatch(q: seq<QueueEntry>, i: nat, used: set<UserId>)
    requires i < |q| && q[i].userId !in used
    requires forall k | i < k < |q| :: q[k].userId in used || !Compatible(q[i], q[k])
    ensures Pairs(Unused(q[i..], used)) == Pairs(Unused(q[i + 1..], used))
    ensures Leftover(Unused(q[i..], used)) == [q[i]] + Leftover(Unused(q[i + 1..], used))
  {
    hide Unused, Compatible;
    UnusedStep(q, i, used);
    var rest := q[i + 1..];
    FirstUnused(q[i], rest, used, |rest|);
    assert ([q[i]] + Unused(rest, used))[1..] == Unused(rest, used);
  }

  lemma OthersBefore(q: seq<QueueEntry>, used: set<UserId>, i: nat, j: nat)
    requires DistinctUsers(q) && i < j < |q|
    ensures Unused(q[..i], used + {q[i].userId, q[j].userId}) == Unused(q[..i], used)
  {
    hide Unused;
    UnusedOthers(q[..i], used, {q[i].userId, q[j].userId});
  }

  /** The head of the unused entries is paired with entry j, and both become used. */
  lemma StepMatch(q: seq<QueueEntry>, i: nat, j: nat, used: set<UserId>)
    requires DistinctUsers(q) && i < j < |q| && q[i].userId !in used && q[j].userId !in used
    requires Compatible(q[i], q[j])
    requires forall k | i < k < j :: q[k].userId in used || !Compatible(q[i], q[k])
    ensures var more := used + {q[i].userId, q[j].userId};
            && Pairs(Unused(q[i..], used)) == [Pair(q[i], q[j])] + Pairs(Unused(q[i + 1..], more))
            && Leftover(Unused(q[i..], used)) == Leftover(Unused(q[i + 1..], more))
            && Unused(q[..i + 1], more) == Unused(q[..i], used)
  {
    hide Unused, Compatible, DistinctUsers, Without, Pairs, Leftover;
    var more, rest := used + {q[i].userId, q[j].userId}, q[i + 1..];
    UnusedStep(q, i, used);
    UnusedStep(q, i, more);
    assert rest[..j - i - 1] == q[i + 1..j];
    FirstUnused(q[i], rest, used, j - i - 1);
    UseOne(q, used, i, j);
    HeadPaired(q[i], Unused(rest, used), FirstFor(q[i], Unused(rest, used)));
    OthersBefore(q, used, i, j);
  }

  /** One pass over a fixed snapshot of the queue: the pairs in the order they are announced, and the
      users to be removed from the queue. */
  method MatchPass(q: seq<QueueEntry>) returns (pairs: seq<Pair>, used: set<UserId>)
    requires DistinctUsers(q)
    ensures pairs == Pairs(q) && Unused(q, used) == Leftover(q)
    ensures forall u :: u in used <==> exists p :: p in pairs && (u == p.white.userId || u == p.black.userId)
  {
    hide Unused, Compatible, Pairs, Leftover, DistinctUsers;
    pairs, used := [], {};
    var i := 0;
    UnusedNone(q);
    Nobody();
    assert q[0..] == q && q[..0] == [];
    while i < |q|
      invariant 0 <= i <= |q|
      invariant pairs + Pairs(Unused(q[i..], used)) == Pairs(q)
      invariant Unused(q[..i], used) + Leftover(Unused(q[i..], used)) == Leftover(q)
      invariant forall u :: u in used <==> exists p :: p in pairs && (u == p.white.userId || u == p.black.userId)
    {
      UnusedStep(q, i, used);
      if q[i].userId in used {
        i := i + 1;
        continue;
      }
      var j := FindMatch(q, i, used);
      if j == |q| {
        StepNoMatch(q, i, used);
        assert Unused(q[..i], used) + ([q[i]] + Leftover(Unused(q[i + 1..], used)))
            == Unused(q[..i], used) + [q[i]] + Leftover(Unused(q[i + 1..], used));
        i := i + 1;
        continue;
      }
      StepMatch(q, i, j, used);
      assert pairs + ([Pair(q[i], q[j])] + Pairs(Unused(q[i + 1..], used + {q[i].userId, q[j].userId})))
          == pairs + [Pair(q[i], q[j])] + Pairs(Unused(q[i + 1..], used + {q[i].userId, q[j].userId}));
      pairs := pairs + [Pair(q[i], q[j])];
      used := used + {q[i].userId, q[j].userId};
      i := i + 1;
    }
    assert q[|q|..] == [] && q[..|q|] == q;
  }

  lemma Nobody()
    ensures Pairs([]) == [] && Leftover([]) == []
    ensures forall used :: Unused([], used) == []
  {
  }
}
