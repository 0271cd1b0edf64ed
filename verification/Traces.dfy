/** The landings of a whole run, in the order in which the engine resolves them, each with the state
    it is resolved in and the absolute time of the tick. The game keeps no clock; `clock` is ours. */
module Traces {
  import opened Flights
  import opened Play
  import opened Occupancy

  /** The head of `queue` is about to land in state `before`; the rest of `queue` lands after it. */
  datatype Landing = Landing(before: Game, queue: seq<Flight>, clock: int) {
    predicate Live() {
      queue != []
    }

    function Flight(): Flight
      requires Live()
    {
      queue[0]
    }

    /** The landing flight with its absolute arrival time. */
    function Key(): Flight
      requires Live()
    {
      queue[0].Absolute(clock)
    }

    function Pending(): set<Flight> {
      FlightsOf(queue) + FlightsOf(before.active)
    }
  }

  function LandTrace(g: Game, q: seq<Flight>, clock: int): (t: seq<Landing>)
    requires Sound(g) && Named(g, q)
    ensures |t| == |q|
    ensures forall k | 0 <= k < |t| :: t[k].Live() && t[k].queue == q[k..] && t[k].clock == clock
    decreases |q|
  {
    if q == [] then [] else [Landing(g, q, clock)] + LandTrace(Land(g, q[0]), q[1..], clock)
  }

  /** Time passes only while the game is on. */
  function Elapsed(g: Game, e: Event): int {
    if e.Wait? && !g.over then e.ms else 0
  }

  function TraceOf(g: Game, e: Event, clock: int): (t: seq<Landing>)
    requires Sound(g)
    ensures forall k | 0 <= k < |t| :: t[k].Live()
  {
    if e.Wait? && !g.over
    then LandTrace(Airborne(g, e.ms), Landings(g.active, e.ms), clock + e.ms)
    else []
  }

  function Trace(g: Game, es: seq<Event>, clock: int): (t: seq<Landing>)
    requires Sound(g)
    ensures forall k | 0 <= k < |t| :: t[k].Live()
    decreases |es|
  {
    if es == [] then []
    else TraceOf(g, es[0], clock) + Trace(Next(g, es[0]), es[1..], clock + Elapsed(g, es[0]))
  }

  function ClockAfter(g: Game, es: seq<Event>, clock: int): int
    requires Sound(g)
    decreases |es|
  {
    if es == [] then clock else ClockAfter(Next(g, es[0]), es[1..], clock + Elapsed(g, es[0]))
  }

  lemma {:induction false} LandTraceAt(g: Game, q: seq<Flight>, clock: int, k: nat)
    requires Sound(g) && Named(g, q) && k < |q|
    ensures LandTrace(g, q, clock)[k].before == LandAll(g, q[..k])
    ensures LandTrace(g, q, clock)[k].before.active == g.active
    decreases k
  {
    hide Land;
    if k == 0 {
      assert q[..0] == [];
    } else {
      LandTraceAt(Land(g, q[0]), q[1..], clock, k - 1);
      assert q[..k][0] == q[0] && q[..k][1..] == q[1..][..k - 1];
    }
  }

  // ---- the invariant at every landing ----

  lemma {:induction false} LandTraceInv(g: Game, q: seq<Flight>, clock: int, air: set<Flight>, k: nat)
    requires Inv(g, FlightsOf(q) + air)
    requires forall i, j | 0 <= i < j < |q| :: q[i] != q[j]
    requires forall m | m in q :: m !in air
    requires Named(g, q) && k < |q|
    ensures Inv(LandTrace(g, q, clock)[k].before, FlightsOf(q[k..]) + air)
    decreases k
  {
    hide Inv, Land;
    InvBoard(g, FlightsOf(q) + air);
    if k == 0 {
      assert q[0..] == q;
    } else {
      PendingTail(q, air);
      LandKeepsInv(g, FlightsOf(q) + air, q[0]);
      LandTraceInv(Land(g, q[0]), q[1..], clock, air, k - 1);
      assert q[1..][k - 1..] == q[k..];
    }
  }

  lemma LandingsApart(g: Game, ms: int)
    requires Sound(g) && Steady(g)
    ensures var q, air := Landings(g.active, ms), FlightsOf(StillMoving(g.active, ms));
            && Inv(Airborne(g, ms), FlightsOf(q) + air)
            && (forall i, j | 0 <= i < j < |q| :: q[i] != q[j])
            && (forall m | m in q :: m !in air)
  {
    hide Steady, Inv, Landings, StillMoving, Sorted, Sound;
    AirborneInv(g, ms);
    var q, air := Landings(g.active, ms), FlightsOf(StillMoving(g.active, ms));
    forall i, j | 0 <= i < j < |q| ensures q[i] != q[j] {
      assert q[i].id != q[j].id;
    }
    forall m | m in q ensures m !in air {
      assert m in FlightsOf(q);
    }
  }

  lemma TickTraceInv(g: Game, e: Event, clock: int, k: nat)
    requires Sound(g) && Steady(g) && k < |TraceOf(g, e, clock)|
    ensures var l := TraceOf(g, e, clock)[k]; Inv(l.before, l.Pending())
    ensures e.Wait? && TraceOf(g, e, clock)[k].before.active == StillMoving(g.active, e.ms)
  {
    hide Steady, Inv, Landings, StillMoving, LandTrace, Sound;
    LandingsApart(g, e.ms);
    var q := Landings(g.active, e.ms);
    LandTraceInv(Airborne(g, e.ms), q, clock + e.ms, FlightsOf(StillMoving(g.active, e.ms)), k);
    LandTraceAt(Airborne(g, e.ms), q, clock + e.ms, k);
  }

  /** The occupancy invariant holds at every point inside the landing loop of every run. */
  lemma {:induction false} InvAtEveryLanding(g: Game, es: seq<Event>, clock: int, k: nat)
    requires Sound(g) && Steady(g) && k < |Trace(g, es, clock)|
    ensures var l := Trace(g, es, clock)[k]; Inv(l.before, l.Pending())
    decreases |es|
  {
    hide Steady, Inv, Next, TraceOf, Sound;
    var t := TraceOf(g, es[0], clock);
    if k < |t| {
      TickTraceInv(g, es[0], clock, k);
    } else {
      NextKeeps(g, es[0]);
      InvAtEveryLanding(Next(g, es[0]), es[1..], clock + Elapsed(g, es[0]), k - |t|);
    }
  }

  // ---- the global order of landings ----

  ghost predicate InTime(g: Game) {
    forall m | m in g.active :: m.remaining > 0
  }

  lemma NextKeepsTime(g: Game, e: Event)
    requires Sound(g) && InTime(g) && Timely(e)
    ensures InTime(Next(g, e))
  {
    if e.Wait? { PartedAll(g.active, e.ms); }
  }

  lemma TickLandings(g: Game, e: Event, clock: int)
    requires Sound(g) && Ordered(g.active) && InTime(g) && Timely(e)
    ensures var t := TraceOf(g, e, clock);
            && (forall k | 0 <= k < |t| :: clock < t[k].Key().remaining <= clock + Elapsed(g, e))
            && InOrder(t)
  {
    hide Landings, StillMoving, LandTrace, Sound;
    if e.Wait? && !g.over {
      LandingsSorted(g.active, e.ms);
      var q, t := Landings(g.active, e.ms), TraceOf(g, e, clock);
      forall k | 0 <= k < |t| ensures t[k].queue[0] == q[k] && clock < t[k].Key().remaining <= clock + e.ms {
        assert q[k] in q && q[k].After(-e.ms) in g.active;
      }
    }
  }

  lemma SteadyOrdered(g: Game)
    requires Steady(g)
    ensures Ordered(g.active)
  {
  }

  /** Strictly ordered by (absolute arrival, duration, move before jump, newer id first). */
  ghost predicate InOrder(t: seq<Landing>) {
    && (forall k | 0 <= k < |t| :: t[k].Live())
    && forall i, j | 0 <= i < j < |t| :: Before(ByLanding, t[i].Key(), t[j].Key())
  }

  lemma EmptyInOrder()
    ensures InOrder([])
  {
  }

  lemma JoinOrdered(s: seq<Landing>, t: seq<Landing>, bound: int)
    requires InOrder(s) && InOrder(t)
    requires forall k | 0 <= k < |s| :: s[k].Key().remaining <= bound
    requires forall k | 0 <= k < |t| :: bound < t[k].Key().remaining
    ensures InOrder(s + t)
  {
  }

  lemma {:induction false} LandingsLieAhead(g: Game, es: seq<Event>, clock: int)
    requires Sound(g) && Steady(g) && InTime(g) && AllTimely(es)
    ensures forall k | 0 <= k < |Trace(g, es, clock)| :: clock < Trace(g, es, clock)[k].Key().remaining
    decreases |es|
  {
    hide Steady, InTime, Next, TraceOf, Sound;
    if es != [] {
      SteadyOrdered(g);
      TickLandings(g, es[0], clock);
      NextKeeps(g, es[0]);
      NextKeepsTime(g, es[0]);
      assert es == [es[0]] + es[1..];
      LandingsLieAhead(Next(g, es[0]), es[1..], clock + Elapsed(g, es[0]));
      assert Timely(es[0]);
    }
  }

  /** Over a whole run, across ticks and with launches in between, landings are resolved in order of
      (absolute arrival time, flight duration, move before jump, newer id first). The order is strict,
      so no motion ever lands twice. */
  lemma {:induction false} LandingOrder(g: Game, es: seq<Event>, clock: int)
    requires Sound(g) && Steady(g) && InTime(g) && AllTimely(es)
    ensures InOrder(Trace(g, es, clock))
    decreases |es|
  {
    hide Steady, InTime, Next, TraceOf, Sound, InOrder;
    if es == [] {
      EmptyInOrder();
    } else {
      var c := clock + Elapsed(g, es[0]);
      SteadyOrdered(g);
      TickLandings(g, es[0], clock);
      NextKeeps(g, es[0]);
      NextKeepsTime(g, es[0]);
      assert es == [es[0]] + es[1..];
      LandingsLieAhead(Next(g, es[0]), es[1..], c);
      LandingOrder(Next(g, es[0]), es[1..], c);
      JoinOrdered(TraceOf(g, es[0], clock), Trace(Next(g, es[0]), es[1..], c), c);
    }
  }

  // ---- what is in the air, in absolute time ----

  /** The motions in the air, each with its absolute arrival time. */
  function Aloft(g: Game, clock: int): set<Flight> {
    set m | m in g.active :: m.Absolute(clock)
  }

  lemma AloftHas(g: Game, clock: int, f: Flight)
    ensures f in Aloft(g, clock) <==> f.Absolute(-clock) in g.active
  {
  }

  lemma AloftStep(g: Game, e: Event, clock: int, f: Flight)
    requires Sound(g) && InTime(g) && Timely(e) && f in Aloft(g, clock)
    ensures f in Aloft(Next(g, e), clock + Elapsed(g, e)) <==> f.remaining > clock + Elapsed(g, e)
  {
    hide Aloft, Land, OutcomeOf, MoveAccepted, Blocked;
    AloftHas(g, clock, f);
    AloftHas(Next(g, e), clock + Elapsed(g, e), f);
    if e.Wait? && !g.over {
      Parted(g.active, e.ms, f.Absolute(-(clock + e.ms)));
      assert f.Absolute(-(clock + e.ms)).After(-e.ms) == f.Absolute(-clock);
    }
  }

  lemma {:induction false} ClockRuns(g: Game, es: seq<Event>, clock: int)
    requires Sound(g) && AllTimely(es)
    ensures clock <= ClockAfter(g, es, clock)
    decreases |es|
  {
    hide Next, Sound;
    if es != [] {
      assert Timely(es[0]);
      ClockRuns(Next(g, es[0]), es[1..], clock + Elapsed(g, es[0]));
    }
  }

  lemma {:induction false} NeverBackAloft(g: Game, es: seq<Event>, clock: int, f: Flight)
    requires Sound(g) && Steady(g) && InTime(g) && AllTimely(es) && f.remaining <= clock
    ensures f !in Aloft(Run(g, es), ClockAfter(g, es, clock))
    decreases |es|
  {
    hide Steady, Next, Sound;
    if es == [] {
      AloftHas(g, clock, f);
    } else {
      NextKeeps(g, es[0]);
      assert es == [es[0]] + es[1..];
      assert Timely(es[0]);
      NextKeepsTime(g, es[0]);
      NeverBackAloft(Next(g, es[0]), es[1..], clock + Elapsed(g, es[0]), f);
    }
  }

  /** A motion is in the air exactly while its arrival time is later than the clock. */
  lemma {:induction false} AloftUntilArrival(g: Game, es: seq<Event>, clock: int, f: Flight)
    requires Sound(g) && Steady(g) && InTime(g) && AllTimely(es) && f in Aloft(g, clock)
    ensures f in Aloft(Run(g, es), ClockAfter(g, es, clock)) <==> f.remaining > ClockAfter(g, es, clock)
    decreases |es|
  {
    hide Steady, Next, Sound, Aloft;
    if es == [] {
      AloftHas(g, clock, f);
    } else {
      var h, c := Next(g, es[0]), clock + Elapsed(g, es[0]);
      assert es == [es[0]] + es[1..];
      assert Timely(es[0]);
      AloftStep(g, es[0], clock, f);
      NextKeeps(g, es[0]);
      NextKeepsTime(g, es[0]);
      if f.remaining > c {
        AloftUntilArrival(h, es[1..], c, f);
      } else {
        NeverBackAloft(h, es[1..], c, f);
        ClockRuns(h, es[1..], c);
      }
    }
  }

  // ---- every motion lands ----

  /** Within one tick: a motion whose arrival time has come is one of the landings. */
  lemma LandsInTick(g: Game, e: Event, clock: int, f: Flight) returns (k: nat)
    requires Sound(g) && Steady(g) && f in Aloft(g, clock)
    requires e.Wait? && !g.over && f.remaining <= clock + e.ms
    ensures k < |TraceOf(g, e, clock)| && TraceOf(g, e, clock)[k].Key() == f
  {
    hide Steady, Sound, StillMoving, Landings, LandTrace, Sorted, DistinctIds, Aloft;
    SteadyOrdered(g);
    AloftHas(g, clock, f);
    var m, q := f.Absolute(-(clock + e.ms)), Landings(g.active, e.ms);
    assert m.After(-e.ms) == f.Absolute(-clock) && m.Absolute(clock + e.ms) == f;
    LandingsSorted(g.active, e.ms);
    k :| 0 <= k < |q| && q[k] == m;
    assert TraceOf(g, e, clock)[k].queue[0] == q[k];
  }

  lemma {:induction false} LandingsLieBehind(g: Game, es: seq<Event>, clock: int)
    requires Sound(g) && Steady(g) && InTime(g) && AllTimely(es)
    ensures forall k | 0 <= k < |Trace(g, es, clock)| ::
              Trace(g, es, clock)[k].Key().remaining <= ClockAfter(g, es, clock)
    decreases |es|
  {
    hide Steady, InTime, Next, TraceOf, Sound;
    if es != [] {
      SteadyOrdered(g);
      TickLandings(g, es[0], clock);
      NextKeeps(g, es[0]);
      NextKeepsTime(g, es[0]);
      assert es == [es[0]] + es[1..];
      LandingsLieBehind(Next(g, es[0]), es[1..], clock + Elapsed(g, es[0]));
      ClockRuns(Next(g, es[0]), es[1..], clock + Elapsed(g, es[0]));
    }
  }

  lemma {:induction false} LandsInRun(g: Game, es: seq<Event>, clock: int, f: Flight) returns (k: nat)
    requires Sound(g) && Steady(g) && InTime(g) && AllTimely(es)
    requires f in Aloft(g, clock) && f.remaining <= ClockAfter(g, es, clock)
    ensures k < |Trace(g, es, clock)| && Trace(g, es, clock)[k].Key() == f
    decreases |es|
  {
    hide Steady, InTime, Next, TraceOf, Sound, Aloft;
    k := 0;
    AheadOfClock(g, clock, f);
    if es != [] {
      var t, h, c := TraceOf(g, es[0], clock), Next(g, es[0]), clock + Elapsed(g, es[0]);
      assert es == [es[0]] + es[1..];
      assert Timely(es[0]);
      AloftStep(g, es[0], clock, f);
      if f.remaining <= c {
        k := LandsInTick(g, es[0], clock, f);
      } else {
        NextKeeps(g, es[0]);
        NextKeepsTime(g, es[0]);
        k := LandsInRun(h, es[1..], c, f);
        k := |t| + k;
      }
    }
  }

  lemma AheadOfClock(g: Game, clock: int, f: Flight)
    requires InTime(g) && f in Aloft(g, clock)
    ensures f.remaining > clock
  {
    AloftHas(g, clock, f);
  }

  /** A motion in the air is resolved, exactly once, if and only if the clock reaches its arrival time. */
  lemma LandsIffDue(g: Game, es: seq<Event>, clock: int, f: Flight)
    requires Sound(g) && Steady(g) && InTime(g) && AllTimely(es) && f in Aloft(g, clock)
    ensures var t := Trace(g, es, clock);
            && (f.remaining <= ClockAfter(g, es, clock) <==> exists k :: 0 <= k < |t| && t[k].Key() == f)
            && forall j, k | 0 <= j < k < |t| :: !(t[j].Key() == f && t[k].Key() == f)
  {
    hide Trace, Steady, InTime, Sound, Aloft;
    LandingOrder(g, es, clock);
    LandingsLieBehind(g, es, clock);
    if f.remaining <= ClockAfter(g, es, clock) {
      var k := LandsInRun(g, es, clock, f);
    }
  }
}
