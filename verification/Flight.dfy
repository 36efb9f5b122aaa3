/** Flights over regions (examples/regional_airport_migration_demo.cpp): the landing time is computed
    once, by stepping over the boundaries; the flight itself is a chain of events, each of which
    schedules the next crossing.  The chain crosses at the very times of the computation.

    Times and positions are 64-bit and wrap as the demo's do. */
module Flight {
  import opened Stamps

  datatype Plane = Plane(region: u32, x: u64, destRegion: u32, destX: u64, speed: u64)

  function Wrap(x: nat): u64 {
    x % TWO64
  }

  function AbsDiff(a: u64, b: u64): u64 {
    if a < b then b - a else a - b
  }

  function DivCeil(num: u64, den: u64): (q: u64)
    requires den > 0
    ensures num + den - 1 < TWO64 ==> num <= q * den < num + den
  {
    Wrap(num + den - 1) / den
  }

  /** Travel over a distance; at least one tick. */
  function Ticks(dist: u64, speed: u64): (dt: u64)
    requires speed > 0
    ensures dt >= 1
  {
    var dt := DivCeil(dist, speed);
    if dt == 0 then 1 else dt
  }

  /** Where the plane crosses next: the boundary towards its destination. */
  function BoundaryX(width: u64, p: Plane): u64 {
    if p.destRegion > p.region then Wrap((p.region + 1) * width) else Wrap(p.region * width)
  }

  function NextRegion(p: Plane): u32
    requires p.region != p.destRegion
  {
    if p.destRegion > p.region then p.region + 1 else p.region - 1
  }

  /** The plane as it crosses. */
  function AtCrossing(width: u64, p: Plane): Plane
    requires p.region != p.destRegion
  {
    p.(region := NextRegion(p), x := BoundaryX(width, p))
  }

  /** How long it takes to the next boundary, or in the last region to the destination. */
  function LegTicks(width: u64, p: Plane): (dt: u64)
    requires p.speed > 0
    ensures dt >= 1
  {
    Ticks(AbsDiff(if p.region == p.destRegion then p.destX else BoundaryX(width, p), p.x), p.speed)
  }

  function CrossingTime(width: u64, p: Plane, now: u64): u64
    requires p.speed > 0
  {
    Wrap(now + LegTicks(width, p))
  }

  /* ---- Precomputed ---- */

  /** The times of all crossings of a flight. */
  function Crossings(width: u64, p: Plane, now: u64): (times: seq<u64>)
    requires p.speed > 0
    ensures |times| == AbsDiff(p.destRegion, p.region)
    decreases AbsDiff(p.destRegion, p.region)
  {
    if p.region == p.destRegion then []
    else [CrossingTime(width, p, now)] + Crossings(width, AtCrossing(width, p), CrossingTime(width, p, now))
  }

  function LandTime(width: u64, p: Plane, now: u64): u64
    requires p.speed > 0
    decreases AbsDiff(p.destRegion, p.region)
  {
    if p.region == p.destRegion then CrossingTime(width, p, now)
    else LandTime(width, AtCrossing(width, p), CrossingTime(width, p, now))
  }

  /** The landing time, by stepping through the regions. */
  method ComputeLandTime(width: u64, departTime: u64, p: Plane) returns (t: u64)
    requires p.speed > 0
    ensures t == LandTime(width, p, departTime)
  {
    hide DivCeil, AbsDiff, Wrap, LandTime;
    t := departTime;
    var region: u32, x: u64 := p.region, p.x;
    assert p.(region := region, x := x) == p;
    while region != p.destRegion
      invariant LandTime(width, p, departTime) == LandTime(width, p.(region := region, x := x), t)
      decreases if p.destRegion > region then p.destRegion - region else region - p.destRegion
    {
      OneLeg(width, p.(region := region, x := x), t);
      var goingRight := p.destRegion > region;
      var boundaryX := if goingRight then Wrap((region + 1) * width) else Wrap(region * width);
      var dt := DivCeil(AbsDiff(boundaryX, x), p.speed);
      t := Wrap(t + if dt == 0 then 1 else dt);
      x := boundaryX;
      region := if goingRight then region + 1 else region - 1;
    }
    OneLeg(width, p.(region := region, x := x), t);
    var finalDt := DivCeil(AbsDiff(p.destX, x), p.speed);
    t := Wrap(t + if finalDt == 0 then 1 else finalDt);
  }

  lemma OneLeg(width: u64, p: Plane, now: u64)
    requires p.speed > 0
    ensures LandTime(width, p, now) ==
      if p.region == p.destRegion then CrossingTime(width, p, now)
      else LandTime(width, AtCrossing(width, p), CrossingTime(width, p, now))
  {
  }

  /* ---- Event by event ---- */

  datatype Crossing = NoCrossing | Crossing(time: u64, plane: Plane)

  /** Schedules the ownership update at the next boundary, unless the plane is in its destination
      region or the crossing would be beyond the end of the simulation. */
  method ScheduleNextBoundary(width: u64, endTime: u64, now: u64, p: Plane) returns (c: Crossing)
    requires p.speed > 0
    ensures c == NextCrossing(width, endTime, now, p)
  {
    if p.region == p.destRegion { return NoCrossing; }
    var goingRight := p.destRegion > p.region;
    var nextRegion := if goingRight then p.region + 1 else p.region - 1;
    var boundaryX := if goingRight then Wrap((p.region + 1) * width) else Wrap(p.region * width);
    var dt := DivCeil(AbsDiff(boundaryX, p.x), p.speed);
    var crossTime := Wrap(now + if dt == 0 then 1 else dt);
    if crossTime > endTime { return NoCrossing; }
    c := Crossing(crossTime, p.(region := nextRegion, x := boundaryX));
  }

  function NextCrossing(width: u64, endTime: u64, now: u64, p: Plane): Crossing
    requires p.speed > 0
  {
    if p.region == p.destRegion || CrossingTime(width, p, now) > endTime then NoCrossing
    else Crossing(CrossingTime(width, p, now), AtCrossing(width, p))
  }

  /** The crossings that come about when the install handler at each crossing schedules the next. */
  function Flown(width: u64, endTime: u64, now: u64, p: Plane): seq<u64>
    requires p.speed > 0
    decreases AbsDiff(p.destRegion, p.region)
  {
    match NextCrossing(width, endTime, now, p)
    case NoCrossing => []
    case Crossing(time, plane) => [time] + Flown(width, endTime, time, plane)
  }

  /** The plane after a flight event by event. */
  function FlownPlane(width: u64, endTime: u64, now: u64, p: Plane): Plane
    requires p.speed > 0
    decreases AbsDiff(p.destRegion, p.region)
  {
    match NextCrossing(width, endTime, now, p)
    case NoCrossing => p
    case Crossing(time, plane) => FlownPlane(width, endTime, time, plane)
  }

  /** The times not after a bound at the front of a list. */
  function Within(times: seq<u64>, bound: u64): seq<u64> {
    if |times| == 0 || times[0] > bound then [] else [times[0]] + Within(times[1..], bound)
  }

  /* ---- Times in order ---- */

  /** No addition of time wraps on the way. */
  predicate TimesFit(width: u64, p: Plane, now: u64)
    requires p.speed > 0
    decreases AbsDiff(p.destRegion, p.region)
  {
    now + LegTicks(width, p) < TWO64
    && (p.region != p.destRegion ==> TimesFit(width, AtCrossing(width, p), CrossingTime(width, p, now)))
  }

  /** Departure, crossings and landing come strictly one after the other. */
  ghost predicate InTurn(now: u64, times: seq<u64>, land: u64) {
    && (forall i, j :: 0 <= i < j < |times| ==> times[i] < times[j])
    && (forall i :: 0 <= i < |times| ==> now < times[i] < land)
    && now < land
  }

  lemma LaterJustIfFits(width: u64, p: Plane, now: u64)
    requires p.speed > 0
    ensures now < CrossingTime(width, p, now) <==> now + LegTicks(width, p) < TWO64
  {
    hide LegTicks;
    var sum := now + LegTicks(width, p);
    if sum >= TWO64 { assert sum % TWO64 == sum - TWO64; }
  }

  lemma InTurnCons(now: u64, t: u64, rest: seq<u64>, land: u64)
    ensures InTurn(now, [t] + rest, land) <==> now < t && InTurn(t, rest, land)
  {
    var all := [t] + rest;
    if InTurn(now, all, land) {
      assert all[0] == t;
      forall i | 0 <= i < |rest| ensures t < rest[i] < land { assert all[i + 1] == rest[i]; }
      forall i, j | 0 <= i < j < |rest| ensures rest[i] < rest[j] { assert all[i + 1] == rest[i] && all[j + 1] == rest[j]; }
    }
  }

  /** Crossings come strictly one after the other, the first after departure and the last before
      landing, exactly when no addition of time wraps. */
  lemma {:induction false} CrossingsBeforeLanding(width: u64, p: Plane, now: u64)
    requires p.speed > 0
    ensures InTurn(now, Crossings(width, p, now), LandTime(width, p, now)) <==> TimesFit(width, p, now)
    decreases AbsDiff(p.destRegion, p.region)
  {
    hide InTurn, LegTicks, CrossingTime, AtCrossing;
    LaterJustIfFits(width, p, now);
    if p.region == p.destRegion {
      NoneBetween(now, LandTime(width, p, now));
    } else {
      AtCrossingNearer(width, p);
      var t, q := CrossingTime(width, p, now), AtCrossing(width, p);
      CrossingsBeforeLanding(width, q, t);
      InTurnCons(now, t, Crossings(width, q, t), LandTime(width, q, t));
    }
  }

  lemma NoneBetween(now: u64, land: u64)
    ensures InTurn(now, [], land) <==> now < land
  {
  }

  lemma AtCrossingNearer(width: u64, p: Plane)
    requires p.region != p.destRegion
    ensures AtCrossing(width, p).speed == p.speed
    ensures AbsDiff(AtCrossing(width, p).destRegion, AtCrossing(width, p).region) < AbsDiff(p.destRegion, p.region)
  {
  }

  /* ---- Event by event as computed ---- */

  /** The chain of events makes just the computed crossings that are within the horizon. */
  lemma {:induction false} FlownIsWithinHorizon(width: u64, endTime: u64, now: u64, p: Plane)
    requires p.speed > 0
    ensures Flown(width, endTime, now, p) == Within(Crossings(width, p, now), endTime)
    decreases AbsDiff(p.destRegion, p.region)
  {
    hide CrossingTime, AtCrossing;
    if p.region != p.destRegion {
      AtCrossingNearer(width, p);
      FlownIsWithinHorizon(width, endTime, CrossingTime(width, p, now), AtCrossing(width, p));
    }
  }

  lemma {:induction false} AllWithin(times: seq<u64>, bound: u64)
    ensures Within(times, bound) == times <==> forall i :: 0 <= i < |times| ==> times[i] <= bound
    decreases |times|
  {
    if |times| > 0 {
      AllWithin(times[1..], bound);
      assert times == [times[0]] + times[1..];
      if Within(times, bound) == times { assert Within(times, bound)[1..] == times[1..]; }
      forall i | 0 <= i < |times[1..]| ensures times[1..][i] == times[i + 1] {}
    }
  }

  lemma {:induction false} FlownToTheEnd(width: u64, endTime: u64, now: u64, p: Plane)
    requires p.speed > 0
    requires forall i :: 0 <= i < |Crossings(width, p, now)| ==> Crossings(width, p, now)[i] <= endTime
    ensures FlownPlane(width, endTime, now, p).region == p.destRegion
    decreases AbsDiff(p.destRegion, p.region)
  {
    hide CrossingTime, AtCrossing;
    if p.region != p.destRegion {
      AtCrossingNearer(width, p);
      var rest := Crossings(width, AtCrossing(width, p), CrossingTime(width, p, now));
      var all := Crossings(width, p, now);
      assert all[0] == CrossingTime(width, p, now);
      forall i | 0 <= i < |rest| ensures rest[i] <= endTime { assert all[i + 1] == rest[i]; }
      FlownToTheEnd(width, endTime, CrossingTime(width, p, now), AtCrossing(width, p));
      assert AtCrossing(width, p).destRegion == p.destRegion by { SameDestination(width, p); }
    }
  }

  lemma SameDestination(width: u64, p: Plane)
    requires p.region != p.destRegion
    ensures AtCrossing(width, p).destRegion == p.destRegion
  {
  }

  /** A flight that is scheduled at all, because it lands within the horizon, crosses every boundary
      on its way, at the computed times, strictly before it lands, once for each region. */
  lemma FlightRefinesPlan(width: u64, endTime: u64, now: u64, p: Plane)
    requires p.speed > 0 && TimesFit(width, p, now) && LandTime(width, p, now) <= endTime
    ensures Flown(width, endTime, now, p) == Crossings(width, p, now)
    ensures |Flown(width, endTime, now, p)| == AbsDiff(p.destRegion, p.region)
    ensures forall i :: 0 <= i < |Flown(width, endTime, now, p)| ==> Flown(width, endTime, now, p)[i] < LandTime(width, p, now)
    ensures FlownPlane(width, endTime, now, p).region == p.destRegion
  {
    hide LandTime, Crossings, Flown, FlownPlane, TimesFit;
    CrossingsBeforeLanding(width, p, now);
    FlownIsWithinHorizon(width, endTime, now, p);
    AllWithin(Crossings(width, p, now), endTime);
    FlownToTheEnd(width, endTime, now, p);
  }

  /** Whatever wraps, a flight makes all its crossings exactly when each is within the horizon. */
  lemma FlownWholeJustIf(width: u64, endTime: u64, now: u64, p: Plane)
    requires p.speed > 0
    ensures Flown(width, endTime, now, p) == Crossings(width, p, now) <==>
      forall i :: 0 <= i < |Crossings(width, p, now)| ==> Crossings(width, p, now)[i] <= endTime
  {
    hide Crossings, Flown;
    FlownIsWithinHorizon(width, endTime, now, p);
    AllWithin(Crossings(width, p, now), endTime);
  }

  /* ---- Where and how long, in plain arithmetic ---- */

  /** The region a plane is in after i crossings: one further towards its destination each time. */
  function RegionAfter(p: Plane, i: nat): u32
    requires i <= AbsDiff(p.destRegion, p.region)
  {
    if p.destRegion > p.region then p.region + i else p.region - i
  }

  /** Where it is then: at its start, or on the edge its last two regions share, which is the lower
      edge of the higher of them. */
  function PlaceAfter(width: u64, p: Plane, i: nat): u64
    requires i <= AbsDiff(p.destRegion, p.region)
  {
    if i == 0 then p.x
    else if RegionAfter(p, i) > RegionAfter(p, i - 1) then RegionAfter(p, i) * width % TWO64
    else RegionAfter(p, i - 1) * width % TWO64
  }

  /** The fewest ticks, but at least one, in which a distance is flown; if rounding up does not wrap. */
  ghost predicate FewestTicks(dist: u64, speed: u64, dt: u64) {
    && dt >= 1
    && (dist + speed - 1 < TWO64 ==> dt * speed >= dist && (dt == 1 || (dt - 1) * speed < dist))
  }

  lemma TicksAreFewest(dist: u64, speed: u64)
    requires speed > 0
    ensures FewestTicks(dist, speed, Ticks(dist, speed))
  {
    if dist + speed - 1 < TWO64 {
      var q := DivCeil(dist, speed);
      assert dist <= q * speed < dist + speed;
      assert (q - 1) * speed == q * speed - speed;
    }
  }

  /** The ticks of a leg cover its distance exactly if rounding up does not wrap, or if one tick is
      enough. */
  lemma TicksCoverJustIf(dist: u64, speed: u64)
    requires speed > 0
    ensures Ticks(dist, speed) * speed >= dist <==> dist + speed - 1 < TWO64 || dist <= speed
  {
    if dist + speed - 1 < TWO64 {
      TicksAreFewest(dist, speed);
    } else {
      var n := dist + speed - 1 - TWO64;
      assert (dist + speed - 1) % TWO64 == n;
      var q := n / speed;
      assert q == DivCeil(dist, speed);
      assert q * speed <= n < dist by { assert n == q * speed + n % speed; }
      if q == 0 { assert n < speed; } else { OneOrMore(q, speed); }
    }
  }

  lemma OneOrMore(q: nat, speed: nat)
    requires q >= 1
    ensures q * speed >= speed
  {
    assert q * speed == (q - 1) * speed + speed;
    assert (q - 1) * speed >= 0;
  }

  /** A boundary is the edge shared by the region left and the region entered: where it does not wrap, it
      lies in both. */
  lemma BoundaryIsShared(width: u64, p: Plane)
    requires p.region != p.destRegion
    ensures NextRegion(p) == RegionAfter(p, 1) && BoundaryX(width, p) == PlaceAfter(width, p, 1)
    ensures
      var upper := if NextRegion(p) > p.region then NextRegion(p) else p.region;
      upper * width < TWO64 ==>
        && p.region * width <= BoundaryX(width, p) <= (p.region + 1) * width
        && NextRegion(p) * width <= BoundaryX(width, p) <= (NextRegion(p) + 1) * width
  {
    var upper := if NextRegion(p) > p.region then NextRegion(p) else p.region;
    SharedEdge(upper - 1, width);
    assert upper * width < TWO64 ==> upper * width % TWO64 == upper * width;
  }

  /** The edge between a region and the next. */
  lemma SharedEdge(region: nat, width: nat)
    ensures region * width <= (region + 1) * width <= (region + 2) * width
  {
    assert (region + 1) * width == region * width + width;
    assert (region + 2) * width == (region + 1) * width + width;
  }

  /** The plane after i crossings. */
  function PlaneAfter(width: u64, p: Plane, i: nat): Plane
    requires i <= AbsDiff(p.destRegion, p.region)
  {
    p.(region := RegionAfter(p, i), x := PlaceAfter(width, p, i))
  }

  lemma NextPlane(width: u64, p: Plane, i: nat)
    requires i < AbsDiff(p.destRegion, p.region)
    ensures AtCrossing(width, PlaneAfter(width, p, i)) == PlaneAfter(width, p, i + 1)
  {
    var q := PlaneAfter(width, p, i);
    BoundaryIsShared(width, q);
  }

  lemma RestFromNext(width: u64, p: Plane, i: nat)
    requires i < AbsDiff(p.destRegion, p.region)
    ensures AbsDiff(AtCrossing(width, p).destRegion, AtCrossing(width, p).region) == AbsDiff(p.destRegion, p.region) - 1
    ensures PlaneAfter(width, AtCrossing(width, p), i) == PlaneAfter(width, p, i + 1)
  {
    NextPlane(width, p, 0);
  }

  /** When crossing i is made: a leg's ticks after the one before, or after departure. */
  lemma {:induction false} CrossingIs(width: u64, p: Plane, now: u64, i: nat)
    requires p.speed > 0 && i < |Crossings(width, p, now)|
    ensures Crossings(width, p, now)[i]
         == CrossingTime(width, PlaneAfter(width, p, i), if i == 0 then now else Crossings(width, p, now)[i - 1])
    decreases i
  {
    hide CrossingTime, AtCrossing, PlaneAfter;
    var q, t := AtCrossing(width, p), CrossingTime(width, p, now);
    AtCrossingNearer(width, p);
    if i == 0 {
      assert PlaneAfter(width, p, 0) == p by { StartPlane(width, p); }
    } else {
      CrossingIs(width, q, t, i - 1);
      RestFromNext(width, p, i - 1);
      assert Crossings(width, p, now)[1..] == Crossings(width, q, t);
    }
  }

  lemma StartPlane(width: u64, p: Plane)
    ensures PlaneAfter(width, p, 0) == p
  {
  }

  lemma {:induction false} LandingIs(width: u64, p: Plane, now: u64)
    requires p.speed > 0
    ensures
      var times := Crossings(width, p, now);
      var n := |times|;
      LandTime(width, p, now) == CrossingTime(width, PlaneAfter(width, p, n), if n == 0 then now else times[n - 1])
    decreases AbsDiff(p.destRegion, p.region)
  {
    hide CrossingTime, AtCrossing, PlaneAfter;
    if p.region == p.destRegion {
      StartPlane(width, p);
    } else {
      var q, t := AtCrossing(width, p), CrossingTime(width, p, now);
      AtCrossingNearer(width, p);
      LandingIs(width, q, t);
      RestFromNext(width, p, AbsDiff(p.destRegion, p.region) - 1);
    }
  }

  /** The computed plan in plain arithmetic: crossing i is from one region to the next, at the edge they
      share, and comes the fewest ticks after the crossing before it (or departure) in which the
      distance between the two places is flown; so does the landing after the last crossing. */
  lemma PlanMeans(width: u64, p: Plane, now: u64, i: nat) returns (dt: u64)
    requires p.speed > 0 && i <= |Crossings(width, p, now)|
    ensures
      var times := Crossings(width, p, now);
      var n := |times|;
      var from := PlaceAfter(width, p, i);
      var to := if i < n then PlaceAfter(width, p, i + 1) else p.destX;
      && FewestTicks(if from < to then to - from else from - to, p.speed, dt)
      && (if i < n then times[i] else LandTime(width, p, now)) == ((if i == 0 then now else times[i - 1]) + dt) % TWO64
  {
    hide FewestTicks, Ticks, Crossings, LandTime;
    var n := |Crossings(width, p, now)|;
    var q := PlaneAfter(width, p, i);
    if i < n {
      CrossingIs(width, p, now, i);
      BoundaryIsShared(width, q);
      NextPlane(width, p, i);
    } else {
      LandingIs(width, p, now);
    }
    var to := if i < n then PlaceAfter(width, p, i + 1) else p.destX;
    dt := Ticks(AbsDiff(to, q.x), p.speed);
    TicksAreFewest(AbsDiff(to, q.x), p.speed);
  }
}
