/** What greedy matchmaking guarantees. */
module MatchingLaws {
  import opened Basics
  import opened Matchmaking

  /** Two ratings fit when they are at most 100 points apart. */
  lemma WindowIs(a: QueueEntry, b: QueueEntry)
    ensures Compatible(a, b) <==> -100 <= a.elo - b.elo <= 100
  {
  }

  lemma WithoutParts(q: seq<QueueEntry>, k: nat)
    requires k < |q|
    ensures multiset(Without(q, k)) + multiset{q[k]} == multiset(q) && |Without(q, k)| == |q| - 1
    ensures forall e :: e in Without(q, k) ==> e in q
    ensures DistinctUsers(q) ==>
              DistinctUsers(Without(q, k)) && forall e | e in Without(q, k) :: e.userId != q[k].userId
  {
    hide DistinctUsers;
    assert q == q[..k] + [q[k]] + q[k + 1..];
    if DistinctUsers(q) { WithoutDistinct(q, k); }
  }

  lemma WithoutDistinct(q: seq<QueueEntry>, k: nat)
    requires k < |q| && DistinctUsers(q)
    ensures DistinctUsers(Without(q, k)) && forall e | e in Without(q, k) :: e.userId != q[k].userId
  {
    var w := Without(q, k);
    assert forall i | 0 <= i < k :: w[i] == q[i];
    assert forall i | k <= i < |w| :: w[i] == q[i + 1];
  }

  /** What the head of the queue does: it stays, or it leaves with the first that fits. */
  lemma HeadStays(q: seq<QueueEntry>)
    requires q != [] && FirstFor(q[0], q[1..]) >= |q| - 1
    ensures Pairs(q) == Pairs(q[1..]) && Leftover(q) == [q[0]] + Leftover(q[1..])
  {
  }

  lemma HeadLeaves(q: seq<QueueEntry>, k: nat)
    requires q != [] && k == FirstFor(q[0], q[1..]) < |q| - 1
    ensures Pairs(q) == [Pair(q[0], q[1 + k])] + Pairs(Without(q[1..], k))
    ensures Leftover(q) == Leftover(Without(q[1..], k))
  {
  }

  lemma PairedOut(q: seq<QueueEntry>, k: nat, ms: seq<QueueEntry>, l: seq<QueueEntry>)
    requires q != [] && k < |q| - 1 && multiset(ms) + multiset(l) == multiset(Without(q[1..], k))
    ensures multiset([q[0], q[1 + k]] + ms) + multiset(l) == multiset(q)
  {
    var t, x, y := q[1..], q[0], q[1 + k];
    assert q == [x] + (t[..k] + [y] + t[k + 1..]);
    calc {
      multiset([x, y] + ms) + multiset(l);
      { assert [x, y] + ms == [x] + ([y] + ms); }
      multiset{x} + multiset{y} + multiset(ms) + multiset(l);
      multiset{x} + multiset{y} + (multiset(ms) + multiset(l));
      multiset{x} + multiset{y} + multiset(t[..k] + t[k + 1..]);
      multiset{x} + multiset(t[..k] + [y] + t[k + 1..]);
    }
  }

  /** Nobody is lost and nobody is added: the paired and the left over are the queue. */
  lemma {:induction false} Conservation(q: seq<QueueEntry>)
    ensures multiset(Members(Pairs(q))) + multiset(Leftover(q)) == multiset(q)
    decreases |q|
  {
    hide Without, Pairs, Leftover, Members;
    if q == [] {
      NobodyQueued();
    } else {
      var k := FirstFor(q[0], q[1..]);
      assert q == [q[0]] + q[1..];
      if k >= |q| - 1 {
        HeadStays(q);
        Conservation(q[1..]);
      } else {
        HeadLeaves(q, k);
        WithoutParts(q[1..], k);
        Conservation(Without(q[1..], k));
        HeadPair(Pair(q[0], q[1 + k]), Pairs(Without(q[1..], k)));
        PairedOut(q, k, Members(Pairs(Without(q[1..], k))), Leftover(Without(q[1..], k)));
      }
    }
  }

  lemma NobodyQueued()
    ensures Pairs([]) == [] && Leftover([]) == [] && Members([]) == []
  {
  }

  lemma HeadPair(p: Pair, ps: seq<Pair>)
    ensures Members([p] + ps) == [p.white, p.black] + Members(ps)
  {
  }

  lemma FromQueue(q: seq<QueueEntry>)
    ensures forall e | e in Leftover(q) || e in Members(Pairs(q)) :: e in q
  {
  }

  /** Players are paired at most 100 points apart. */
  lemma {:induction false} PairsCompatible(q: seq<QueueEntry>)
    ensures forall p | p in Pairs(q) :: -100 <= p.white.elo - p.black.elo <= 100
    decreases |q|
  {
    hide Without;
    if q != [] {
      var k := FirstFor(q[0], q[1..]);
      FirstForIs(q[0], q[1..]);
      if k >= |q| - 1 {
        PairsCompatible(q[1..]);
      } else {
        WithoutParts(q[1..], k);
        PairsCompatible(Without(q[1..], k));
      }
    }
  }

  /** No player is in two pairs. */
  lemma {:induction false} PairsDisjoint(q: seq<QueueEntry>)
    requires DistinctUsers(q)
    ensures DistinctUsers(Members(Pairs(q)))
    decreases |q|
  {
    hide Without;
    if q != [] {
      var k := FirstFor(q[0], q[1..]);
      FirstForIs(q[0], q[1..]);
      if k >= |q| - 1 {
        PairsDisjoint(q[1..]);
      } else {
        var rest := Without(q[1..], k);
        WithoutParts(q[1..], k);
        PairsDisjoint(rest);
        FromQueue(rest);
        HeadPair(Pair(q[0], q[1 + k]), Pairs(rest));
        forall e | e in Members(Pairs(rest)) ensures e.userId != q[0].userId && e.userId != q[1 + k].userId {
          assert e in q[1..];
        }
      }
    }
  }

  /** Two players more than 100 points apart. */
  ghost predicate FarApart(a: QueueEntry, b: QueueEntry) {
    a.elo - b.elo > 100 || b.elo - a.elo > 100
  }

  /** No two players left over could still be paired. */
  lemma Maximal(q: seq<QueueEntry>)
    ensures forall i, j | 0 <= i < j < |Leftover(q)| :: FarApart(Leftover(q)[i], Leftover(q)[j])
  {
    hide Leftover;
    NoneFits(q);
  }

  lemma {:induction false} NoneFits(q: seq<QueueEntry>)
    ensures forall i, j | 0 <= i < j < |Leftover(q)| :: !Compatible(Leftover(q)[i], Leftover(q)[j])
    decreases |q|
  {
    hide Without, Compatible;
    if q != [] {
      var k := FirstFor(q[0], q[1..]);
      FirstForIs(q[0], q[1..]);
      if k >= |q| - 1 {
        NoneFits(q[1..]);
        FromQueue(q[1..]);
        var rest := Leftover(q[1..]);
        forall j | 0 <= j < |rest| ensures !Compatible(q[0], rest[j]) {
          assert rest[j] in q[1..];
        }
      } else {
        WithoutParts(q[1..], k);
        NoneFits(Without(q[1..], k));
      }
    }
  }

  /** The longest waiting player has the white pieces against the first in the queue who fits, and stays in it only
      if nobody does. */
  lemma OldestFirst(q: seq<QueueEntry>)
    requires DistinctUsers(q) && q != []
    ensures q[0] in Leftover(q) <==> forall i | 1 <= i < |q| :: FarApart(q[0], q[i])
    ensures forall k | 1 <= k < |q| && !FarApart(q[0], q[k]) && forall i | 1 <= i < k :: FarApart(q[0], q[i]) ::
              Pairs(q) != [] && Pairs(q)[0] == Pair(q[0], q[k])
  {
    hide Compatible, Pairs, Leftover;
    forall i | 1 <= i < |q| ensures FarApart(q[0], q[i]) <==> !Compatible(q[0], q[i]) { WindowIs(q[0], q[i]); }
    HeadIsPaired(q);
  }

  lemma HeadIsPaired(q: seq<QueueEntry>)
    requires DistinctUsers(q) && q != []
    ensures var k := 1 + FirstFor(q[0], q[1..]);
            && k <= |q| && (forall i | 1 <= i < k :: !Compatible(q[0], q[i]))
            && (k == |q| ==> q[0] in Leftover(q))
            && (k < |q| ==> q[0] !in Leftover(q) && Compatible(q[0], q[k]) && Pairs(q) != []
                            && Pairs(q)[0] == Pair(q[0], q[k]))
  {
    hide Without, Compatible;
    var k := FirstFor(q[0], q[1..]);
    FirstForIs(q[0], q[1..]);
    assert forall i | 1 <= i < |q| :: q[i] == q[1..][i - 1];
    if k < |q| - 1 {
      WithoutParts(q[1..], k);
      FromQueue(Without(q[1..], k));
      assert q[0] !in q[1..];
    }
  }

  // ---- how many can be left over ----

  function Bucket(e: QueueEntry, lo: int): int {
    (e.elo - lo) / (ELO_WINDOW + 1)
  }

  function Buckets(l: seq<QueueEntry>, lo: int): set<int> {
    if l == [] then {} else {Bucket(l[0], lo)} + Buckets(l[1..], lo)
  }

  lemma ApartBuckets(a: QueueEntry, b: QueueEntry, lo: int)
    requires !Compatible(a, b)
    ensures Bucket(a, lo) != Bucket(b, lo)
  {
  }

  lemma {:induction false} InBuckets(l: seq<QueueEntry>, lo: int, b: int)
    requires b in Buckets(l, lo)
    ensures exists e :: e in l && b == Bucket(e, lo)
  {
    hide Bucket;
    if b != Bucket(l[0], lo) { InBuckets(l[1..], lo, b); }
  }

  lemma {:induction false} AsManyBuckets(l: seq<QueueEntry>, lo: int)
    requires forall i, j | 0 <= i < j < |l| :: !Compatible(l[i], l[j])
    ensures |Buckets(l, lo)| == |l|
  {
    hide Compatible, Bucket;
    if l != [] {
      AsManyBuckets(l[1..], lo);
      if Bucket(l[0], lo) in Buckets(l[1..], lo) {
        InBuckets(l[1..], lo, Bucket(l[0], lo));
        var k :| 0 <= k < |l[1..]| && Bucket(l[1..][k], lo) == Bucket(l[0], lo);
        ApartBuckets(l[0], l[k + 1], lo);
        assert false;
      }
    }
  }

  lemma {:induction false} RangeSize(s: set<int>, n: nat)
    requires forall x | x in s :: 0 <= x < n
    ensures |s| <= n
  {
    if n == 0 {
      assert forall x :: x !in s;
      assert s == {};
    } else {
      RangeSize(s - {n - 1}, n - 1);
      assert s <= (s - {n - 1}) + {n - 1};
    }
  }

  /** With all ratings in [lo, hi], at most one player is left over per 101 points of the range. */
  lemma LeftoverBound(q: seq<QueueEntry>, lo: int, hi: int)
    requires lo <= hi && forall e | e in q :: lo <= e.elo <= hi
    ensures |Leftover(q)| <= (hi - lo) / 101 + 1
  {
    var l, n := Leftover(q), (hi - lo) / (ELO_WINDOW + 1) + 1;
    NoneFits(q);
    FromQueue(q);
    AsManyBuckets(l, lo);
    forall b | b in Buckets(l, lo) ensures 0 <= b < n {
      InBuckets(l, lo, b);
      var e :| e in l && b == Bucket(e, lo);
      assert e in q;
    }
    RangeSize(Buckets(l, lo), n);
  }

  // ---- how good the matching is ----

  /** Some other way of pairing players of q: within the window, nobody twice. */
  ghost predicate IsMatching(q: seq<QueueEntry>, ps: seq<Pair>) {
    && (forall e | e in Members(ps) :: e in q)
    && (forall p | p in ps :: Compatible(p.white, p.black))
    && DistinctUsers(Members(ps))
  }

  lemma {:induction false} FirstForMore(a: QueueEntry, q: seq<QueueEntry>, more: seq<QueueEntry>)
    ensures FirstFor(a, q) < |q| ==> FirstFor(a, q + more) == FirstFor(a, q)
    ensures FirstFor(a, q) >= |q| ==> FirstFor(a, q + more) >= |q|
  {
    hide Compatible;
    if q != [] && !Compatible(a, q[0]) {
      assert (q + more)[1..] == q[1..] + more;
      FirstForMore(a, q[1..], more);
    }
  }

  /** Those who arrive later take nobody's partner away. */
  lemma {:induction false} ArrivalsKeepPairs(q: seq<QueueEntry>, more: seq<QueueEntry>)
    ensures forall p | p in Pairs(q) :: p in Pairs(q + more)
    decreases |q|
  {
    hide Pairs, FirstFor, Leftover;
    NobodyQueued();
    if q != [] {
      var rest, all := q[1..], q + more;
      var k, n := FirstFor(q[0], rest), FirstFor(q[0], rest + more);
      assert all[0] == q[0] && all[1..] == rest + more;
      FirstForMore(q[0], rest, more);
      if k < |rest| {
        HeadLeaves(q, k);
        HeadLeaves(all, k);
        assert Without(rest + more, k) == Without(rest, k) + more;
        ArrivalsKeepPairs(Without(rest, k), more);
      } else if n >= |rest + more| {
        HeadStays(q);
        HeadStays(all);
        ArrivalsKeepPairs(rest, more);
      } else {
        HeadStays(q);
        HeadLeaves(all, n);
        assert Without(rest + more, n) == rest + Without(more, n - |rest|);
        ArrivalsKeepPairs(rest, Without(more, n - |rest|));
      }
    }
  }

  lemma {:induction false} MemberOf(ps: seq<Pair>, k: nat)
    requires k < |ps|
    ensures |Members(ps)| == 2 * |ps| && Members(ps)[2 * k] == ps[k].white && Members(ps)[2 * k + 1] == ps[k].black
    decreases |ps|
  {
    if |ps| > 1 { MemberOf(ps[1..], if k == 0 then 0 else k - 1); }
  }

  lemma PairsApart(q: seq<QueueEntry>, j: nat, k: nat)
    requires DistinctUsers(q) && j < k < |Pairs(q)|
    ensures var p, r := Pairs(q)[j], Pairs(q)[k];
            && p.white.userId != r.white.userId && p.white.userId != r.black.userId
            && p.black.userId != r.white.userId && p.black.userId != r.black.userId
  {
    hide Pairs, Members;
    PairsDisjoint(q);
    MemberOf(Pairs(q), j);
    MemberOf(Pairs(q), k);
  }

  lemma {:induction false} MembersSize(ps: seq<Pair>)
    ensures |Members(ps)| == 2 * |ps|
  {
    if ps != [] { MembersSize(ps[1..]); }
  }

  function UsersOf(es: seq<QueueEntry>): set<UserId> {
    set i | 0 <= i < |es| :: es[i].userId
  }

  lemma {:induction false} UsersSize(es: seq<QueueEntry>)
    ensures |UsersOf(es)| <= |es|
  {
    if es != [] {
      var n := |es| - 1;
      UsersSize(es[..n]);
      assert UsersOf(es) == UsersOf(es[..n]) + {es[n].userId} by {
        assert forall i | 0 <= i < n :: es[..n][i] == es[i];
      }
    }
  }

  /** In a compatible pair of queued players at least one is matched by the greedy pass. */
  lemma OneIsMatched(q: seq<QueueEntry>, a: QueueEntry, b: QueueEntry)
    requires a in q && b in q && a != b && Compatible(a, b)
    ensures a in Members(Pairs(q)) || b in Members(Pairs(q))
  {
    hide Compatible, Pairs, Leftover, Members;
    Conservation(q);
    NoneFits(q);
    var l := Leftover(q);
    assert a in multiset(q) && b in multiset(q);
    if a in l && b in l {
      var i :| 0 <= i < |l| && l[i] == a;
      var j :| 0 <= j < |l| && l[j] == b;
      Symmetric(a, b);
    }
  }

  lemma Symmetric(a: QueueEntry, b: QueueEntry)
    ensures Compatible(a, b) <==> Compatible(b, a)
  {
  }

  /** The user of pair k of another matching that the greedy pass also matched. */
  ghost function Witness(ps: seq<Pair>, k: nat, matched: set<UserId>): UserId
    requires k < |ps|
  {
    if ps[k].white.userId in matched then ps[k].white.userId else ps[k].black.userId
  }

  lemma WitnessesDiffer(ps: seq<Pair>, matched: set<UserId>, j: nat, k: nat)
    requires j < k < |ps| && DistinctUsers(Members(ps))
    ensures Witness(ps, j, matched) != Witness(ps, k, matched)
  {
    hide Members;
    MemberOf(ps, j);
    MemberOf(ps, k);
  }

  lemma {:induction false} DistinctWitnesses(ps: seq<Pair>, matched: set<UserId>, n: nat)
    requires n <= |ps| && DistinctUsers(Members(ps))
    ensures |set k | 0 <= k < n :: Witness(ps, k, matched)| == n
  {
    hide Witness, DistinctUsers, Members;
    if n > 0 {
      var before, w := set k | 0 <= k < n - 1 :: Witness(ps, k, matched), Witness(ps, n - 1, matched);
      DistinctWitnesses(ps, matched, n - 1);
      assert (set k | 0 <= k < n :: Witness(ps, k, matched)) == before + {w};
      forall k | 0 <= k < n - 1 ensures Witness(ps, k, matched) != w {
        WitnessesDiffer(ps, matched, k, n - 1);
      }
    }
  }

  /** The greedy pass makes at least half as many pairs as any other matching of the same queue. */
  lemma HalfOfBest(q: seq<QueueEntry>, ps: seq<Pair>)
    requires IsMatching(q, ps)
    ensures |ps| <= 2 * |Pairs(q)|
  {
    hide Compatible;
    var members := Members(Pairs(q));
    var matched := UsersOf(members);
    var ws := set k | 0 <= k < |ps| :: Witness(ps, k, matched);
    DistinctWitnesses(ps, matched, |ps|);
    forall w | w in ws ensures w in matched {
      var k :| 0 <= k < |ps| && w == Witness(ps, k, matched);
      MemberOf(ps, k);
      var a, b := ps[k].white, ps[k].black;
      assert a in Members(ps) && b in Members(ps) && a.userId != b.userId;
      OneIsMatched(q, a, b);
      if a in members {
        assert a.userId in matched;
      } else {
        var j :| 0 <= j < |members| && members[j] == b;
        assert members[j].userId in matched;
      }
    }
    SubsetSize(ws, matched);
    UsersSize(members);
    MembersSize(Pairs(q));
  }

  lemma {:induction false} SubsetSize(a: set<UserId>, b: set<UserId>)
    requires a <= b
    ensures |a| <= |b|
  {
    if a != {} {
      var x :| x in a;
      SubsetSize(a - {x}, b - {x});
    }
  }

  /** Each pair takes two different users out of the queue. */
  lemma PairsFit(q: seq<QueueEntry>)
    requires DistinctUsers(q)
    ensures 2 * |Pairs(q)| <= |q|
    ensures forall p | p in Pairs(q) :: p.white.userId != p.black.userId
  {
    hide Pairs, Leftover, Members;
    Conservation(q);
    MembersSize(Pairs(q));
    assert |multiset(Members(Pairs(q))) + multiset(Leftover(q))| == |Members(Pairs(q))| + |Leftover(q)|;
    PairsDisjoint(q);
    forall p | p in Pairs(q) ensures p.white.userId != p.black.userId {
      var k :| 0 <= k < |Pairs(q)| && Pairs(q)[k] == p;
      MemberOf(Pairs(q), k);
    }
  }
}
