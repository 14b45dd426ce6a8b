/** The drive simulator: a vehicle moved along a route's polyline, one
    interval tick at a time, at a speed that depends on where it is in the
    route. The random draws are inputs in [0, 1); the great-circle distance is
    the abstract DistanceKm; the 60-per-second timer is one Tick call per
    firing. */
module DriveSimulation {

  import opened Optional
  import opened Geo
  import opened RouteLayer

  /** What the component stores and shows after a tick. */
  datatype SimulationState = SimulationState(
    currentPosition: LatLng,
    currentSegment: nat,
    segmentProgress: real,
    totalProgress: real,
    distanceTraveled: real,
    estimatedTimeRemaining: real,
    currentSpeed: real)

  /** What one tick does visibly: emits a state (and calls `onPositionUpdate`
      with its position and progress), emits nothing, or clears the interval
      and calls `onComplete`. */
  datatype TickOutcome = Emitted(state: SimulationState) | Silent | Completed

  // ------------------------------------------------------------ distances

  /** `reduce((sum, dist) => sum + dist, 0)`, folded from the left. */
  function Sum(s: seq<real>): real
  {
    if s == [] then 0.0 else Sum(s[..|s| - 1]) + s[|s| - 1]
  }

  predicate NonNegative(s: seq<real>)
  {
    forall i :: 0 <= i < |s| ==> s[i] >= 0.0
  }

  lemma {:induction false} SumNonNegative(s: seq<real>)
    requires NonNegative(s)
    ensures Sum(s) >= 0.0
  {
    if s != [] {
      SumNonNegative(s[..|s| - 1]);
    }
  }

  lemma SumPrefixStep(s: seq<real>, k: nat)
    requires k < |s|
    ensures Sum(s[..k + 1]) == Sum(s[..k]) + s[k]
  {
    assert s[..k + 1][..k] == s[..k];
  }

  /** The segment-length loop: entry i is the distance from point i to point
      i + 1, one entry per segment. */
  method SegmentLengths(coordinates: seq<LatLng>, distanceKm: DistanceKm) returns (lengths: seq<real>)
    ensures |lengths| == if |coordinates| == 0 then 0 else |coordinates| - 1
    ensures forall i :: 0 <= i < |lengths| ==> lengths[i] == distanceKm(coordinates[i], coordinates[i + 1])
    ensures NonNegative(lengths)
  {
    lengths := [];
    var i := 0;
    while i < |coordinates| - 1
      invariant 0 <= i <= |coordinates| && (i > 0 ==> i < |coordinates|)
      invariant |lengths| == i
      invariant forall j :: 0 <= j < i ==> lengths[j] == distanceKm(coordinates[j], coordinates[j + 1])
      invariant NonNegative(lengths)
    {
      var dist := distanceKm(coordinates[i], coordinates[i + 1]);
      lengths := lengths + [dist];
      i := i + 1;
    }
  }

  // --------------------------------------------------------------- speed

  /** `getRealisticSpeed(segmentIndex, totalSegments)`: draw is the value of
      `Math.random()` in the branch taken. The caller passes the number of
      coordinates, not of segments, as totalSegments. */
  function RealisticSpeed(segmentIndex: nat, totalSegments: nat, draw: real): (kmh: real)
    requires totalSegments > 0 && 0.0 <= draw < 1.0
    ensures var p := segmentIndex as real / totalSegments as real;
      && (p < 0.1 || p > 0.9 ==> 20.0 <= kmh < 35.0)
      && (0.3 < p < 0.7 ==> 45.0 <= kmh < 70.0)
      && (0.1 <= p <= 0.3 || 0.7 <= p <= 0.9 ==> 30.0 <= kmh < 50.0)
  {
    var progress := segmentIndex as real / totalSegments as real;
    if progress < 0.1 || progress > 0.9 then 20.0 + draw * 15.0
    else if progress > 0.3 && progress < 0.7 then 45.0 + draw * 25.0
    else 30.0 + draw * 20.0
  }

  /** `baseSpeed * (0.8 + Math.random() * 0.4)`: within 20% below and
      (exclusively) 20% above the base speed. */
  function VariedSpeed(baseKmh: real, draw: real): (kmh: real)
    requires baseKmh > 0.0 && 0.0 <= draw < 1.0
    ensures 0.8 * baseKmh <= kmh < 1.2 * baseKmh
  {
    ProductNonNegative(baseKmh, draw * 0.4);
    ProductNonNegative(baseKmh, 0.4 - draw * 0.4);
    assert baseKmh * (0.8 + draw * 0.4) == 0.8 * baseKmh + baseKmh * (draw * 0.4);
    assert 1.2 * baseKmh - baseKmh * (0.8 + draw * 0.4) == baseKmh * (0.4 - draw * 0.4);
    baseKmh * (0.8 + draw * 0.4)
  }

  /** Speed of a tick on segment `segment` of a route with `count` points. */
  function TickSpeed(segment: nat, count: nat, speedDraw: real, variationDraw: real): (kmh: real)
    requires count > 0 && 0.0 <= speedDraw < 1.0 && 0.0 <= variationDraw < 1.0
    ensures 16.0 <= kmh < 84.0
  {
    VariedSpeed(RealisticSpeed(segment, count, speedDraw), variationDraw)
  }

  /** Metres covered in one 1/60 s frame at the given speed. */
  function MoveMeters(kmh: real): (m: real)
    ensures kmh >= 16.0 ==> m >= MinMoveMeters
  {
    (kmh * 1000.0 / 3600.0) * (1.0 / 60.0)
  }

  /** The least distance a tick moves: 16 km/h for 1/60 s, 2/27 m. */
  const MinMoveMeters: real := 2.0 / 27.0

  /** `remainingDistance / (currentSpeed / 3.6)`: kilometres over metres per
      second, without the factor 1000 that seconds would need. */
  function Eta(totalKm: real, traveledKm: real, kmh: real): (eta: real)
    requires kmh > 0.0
    ensures eta * (kmh / 3.6) == totalKm - traveledKm
    ensures eta >= 0.0 <==> traveledKm <= totalKm
  {
    var speed := kmh / 3.6;
    var remaining := totalKm - traveledKm;
    QuotientSign(remaining, speed);
    remaining / speed
  }

  lemma QuotientSign(a: real, b: real)
    requires b > 0.0
    ensures (a / b) * b == a
    ensures a / b >= 0.0 <==> a >= 0.0
  {
    if a >= 0.0 {
      assert a / b >= 0.0;
    } else {
      assert (-a) / b > 0.0;
      assert a / b == -((-a) / b);
    }
  }

  // ---------------------------------------------------------- the cursor

  /** Where the vehicle is: segment index, fraction of the segment, and the
      accumulated `totalDistanceTraveled` in km. */
  datatype Cursor = Cursor(segment: nat, progress: real, traveled: real)

  /** The movement of one tick (lines 82-92). A segment of length zero makes
      the source divide by zero; the quotient is +Infinity, which is >= 1, so
      the segment is left at once. */
  function Advance(c: Cursor, segmentKm: real, moveM: real): (r: Cursor)
    requires 0.0 <= c.progress < 1.0 && segmentKm >= 0.0 && moveM > 0.0
    ensures 0.0 <= r.progress < 1.0
    ensures r.segment == c.segment || r.segment == c.segment + 1
    ensures r.segment == c.segment + 1 <==> segmentKm == 0.0 || c.progress + moveM / (segmentKm * 1000.0) >= 1.0
    ensures r.segment == c.segment + 1 ==> r.progress == 0.0 && r.traveled == c.traveled + segmentKm
    ensures r.segment == c.segment ==>
      r.progress * segmentKm == c.progress * segmentKm + moveM / 1000.0 && r.traveled == c.traveled + moveM / 1000.0
  {
    var p := if segmentKm == 0.0 then 1.0 else c.progress + moveM / (segmentKm * 1000.0);
    if p >= 1.0 then
      Cursor(c.segment + 1, 0.0, c.traveled + segmentKm)
    else
      assert (moveM / (segmentKm * 1000.0)) * segmentKm == moveM / 1000.0;
      assert p * segmentKm == c.progress * segmentKm + (moveM / (segmentKm * 1000.0)) * segmentKm;
      Cursor(c.segment, p, c.traveled + moveM / 1000.0)
  }

  /** Length of segment k, 0 past the last one. */
  function LengthAt(lengths: seq<real>, k: nat): real
  {
    if k < |lengths| then lengths[k] else 0.0
  }

  /** The distance bookkeeping every tick keeps: the finished segments and the
      covered part of the current one are counted, and what is counted twice
      (the partial distances of finished segments) is at most their length. */
  predicate Accounted(lengths: seq<real>, c: Cursor)
    requires c.segment <= |lengths|
  {
    Bracketed(Sum(lengths[..c.segment]), c.progress * LengthAt(lengths, c.segment), c.traveled)
  }

  /** `traveled` counts `done + partial` once, and `done` at most twice. */
  predicate Bracketed(done: real, partial: real, traveled: real)
  {
    done + partial <= traveled <= 2.0 * done + partial
  }

  /** Leaving a segment of length `len` at progress `p` adds `len` to both
      the finished total and the distance traveled. */
  lemma BracketedAfterAdvance(done: real, p: real, len: real, traveled: real)
    requires 0.0 <= p < 1.0 && len >= 0.0
    requires Bracketed(done, p * len, traveled)
    ensures Bracketed(done + len, 0.0, traveled + len)
  {
    ProductNonNegative(p, len);
    ProductNonNegative(1.0 - p, len);
    assert p * len + (1.0 - p) * len == len;
  }

  /** Leaving segment k keeps the bookkeeping. */
  lemma LeaveAccounted(lengths: seq<real>, c: Cursor)
    requires c.segment < |lengths| && lengths[c.segment] >= 0.0
    requires 0.0 <= c.progress < 1.0 && Accounted(lengths, c)
    ensures Accounted(lengths, Cursor(c.segment + 1, 0.0, c.traveled + lengths[c.segment]))
  {
    var len := lengths[c.segment];
    assert LengthAt(lengths, c.segment) == len;
    SumPrefixStep(lengths, c.segment);
    BracketedAfterAdvance(Sum(lengths[..c.segment]), c.progress, len, c.traveled);
  }

  /** Moving `m` km along segment k keeps the bookkeeping. */
  lemma StayAccounted(lengths: seq<real>, c: Cursor, progress: real, m: real)
    requires c.segment < |lengths| && Accounted(lengths, c)
    requires progress * lengths[c.segment] == c.progress * lengths[c.segment] + m
    ensures Accounted(lengths, Cursor(c.segment, progress, c.traveled + m))
  {
    assert LengthAt(lengths, c.segment) == lengths[c.segment];
  }

  /** A tick keeps the bookkeeping. */
  lemma AdvanceAccounted(lengths: seq<real>, c: Cursor, moveM: real)
    requires NonNegative(lengths) && c.segment < |lengths|
    requires 0.0 <= c.progress < 1.0 && moveM > 0.0
    requires Accounted(lengths, c)
    ensures Advance(c, lengths[c.segment], moveM).segment <= |lengths|
    ensures Accounted(lengths, Advance(c, lengths[c.segment], moveM))
  {
    var len := lengths[c.segment];
    assert len >= 0.0;
    var r := Advance(c, len, moveM);
    if r.segment == c.segment + 1 {
      LeaveAccounted(lengths, c);
    } else {
      StayAccounted(lengths, c, r.progress, moveM / 1000.0);
    }
  }

  /** At the last index the whole route is counted, and at most twice. */
  lemma FinishedAccounted(lengths: seq<real>, c: Cursor)
    requires NonNegative(lengths) && c.segment == |lengths|
    requires Accounted(lengths, c)
    ensures Sum(lengths) <= c.traveled <= 2.0 * Sum(lengths)
  {
    assert lengths[..c.segment] == lengths;
    assert LengthAt(lengths, c.segment) == 0.0;
  }

  /** After `dwell` ticks on a segment without leaving it, at least `dwell`
      minimal moves of it are covered. */
  predicate Paced(lengths: seq<real>, c: Cursor, dwell: nat)
  {
    dwell as real * MinMoveMeters <= c.progress * LengthAt(lengths, c.segment) * 1000.0
  }

  /** A tick that stays on its segment adds one to the dwell count and keeps
      the pace; one that leaves restarts the count at 0. */
  lemma AdvancePaced(lengths: seq<real>, c: Cursor, moveM: real, dwell: nat)
    requires NonNegative(lengths) && c.segment < |lengths|
    requires 0.0 <= c.progress < 1.0 && moveM >= MinMoveMeters
    requires Paced(lengths, c, dwell)
    ensures var r := Advance(c, lengths[c.segment], moveM);
      Paced(lengths, r, if r.segment == c.segment then dwell + 1 else 0)
  {
    var r := Advance(c, lengths[c.segment], moveM);
    if r.segment == c.segment {
      assert r.progress * lengths[c.segment] * 1000.0 == c.progress * lengths[c.segment] * 1000.0 + moveM;
    } else {
      assert r.progress == 0.0;
    }
  }

  /** The pace bounds the ticks that stay on one segment: fewer than 13500
      per kilometre of segment (its length at 16 km/h), none on an empty one.
      The tick after them leaves the segment. */
  lemma DwellBounded(lengths: seq<real>, c: Cursor, dwell: nat)
    requires NonNegative(lengths) && 0.0 <= c.progress < 1.0
    requires Paced(lengths, c, dwell)
    ensures dwell as real < LengthAt(lengths, c.segment) * 13500.0 || dwell == 0
  {
    var len := LengthAt(lengths, c.segment);
    if len > 0.0 {
      ProductNonNegative(1.0 - c.progress, len * 1000.0);
      assert c.progress * len * 1000.0 < len * 1000.0 by {
        assert len * 1000.0 - c.progress * len * 1000.0 == (1.0 - c.progress) * (len * 1000.0);
        assert (1.0 - c.progress) * (len * 1000.0) > 0.0;
      }
      assert dwell as real * MinMoveMeters < len * 1000.0;
    } else {
      assert c.progress * len * 1000.0 == 0.0;
    }
  }

  /** A concrete run where the distance traveled passes the route length:
      a 0.5 m route, two ticks of 0.3 m. */
  lemma TraveledCanExceedRoute()
    ensures var c1 := Advance(Cursor(0, 0.0, 0.0), 0.0005, 0.3);
      var c2 := Advance(c1, 0.0005, 0.3);
      c1.segment == 0 && c2.segment == 1 && c2.traveled > Sum([0.0005])
  {
    var c1 := Advance(Cursor(0, 0.0, 0.0), 0.0005, 0.3);
    assert c1 == Cursor(0, 0.6, 0.0003);
    assert Sum([0.0005]) == Sum([]) + 0.0005;
  }

  /** The state emitted on segment `c.segment` at speed `kmh`: the position
      is the point `start + (end - start) * progress` of the current segment,
      so each component lies between the segment's endpoints and the position
      is the segment's start right after a segment change;
      progress is the traveled share of the total, and the ETA is the
      remaining distance over speed / 3.6. */
  function Snapshot(coordinates: seq<LatLng>, c: Cursor, totalKm: real, kmh: real): (s: SimulationState)
    requires c.segment + 1 < |coordinates| && kmh > 0.0 && 0.0 <= c.progress < 1.0
    ensures s.currentPosition == Lerp(coordinates[c.segment], coordinates[c.segment + 1], c.progress)
    ensures Within(s.currentPosition.lat, coordinates[c.segment].lat, coordinates[c.segment + 1].lat)
    ensures Within(s.currentPosition.lng, coordinates[c.segment].lng, coordinates[c.segment + 1].lng)
    ensures c.progress == 0.0 ==> s.currentPosition == coordinates[c.segment]
    ensures s.currentSegment == c.segment && s.segmentProgress == c.progress
    ensures s.distanceTraveled == c.traveled && s.currentSpeed == kmh
    ensures totalKm != 0.0 ==> s.totalProgress * totalKm == c.traveled
    ensures s.estimatedTimeRemaining * (kmh / 3.6) == totalKm - c.traveled
  {
    LerpOnSegment(coordinates[c.segment], coordinates[c.segment + 1], c.progress);
    SimulationState(
      Lerp(coordinates[c.segment], coordinates[c.segment + 1], c.progress),
      c.segment,
      c.progress,
      if totalKm == 0.0 then 0.0 else c.traveled / totalKm,
      c.traveled,
      Eta(totalKm, c.traveled, kmh),
      kmh)
  }

  // -------------------------------------------------------- the simulator

  /** One run of the component's effect: the guard, the initial state, the
      precomputed lengths, and the interval's mutable locals. */
  class Simulator {
    const distanceKm: DistanceKm
    /** The guard passed and the run was set up. */
    var created: bool
    var coordinates: seq<LatLng>
    var segmentDistances: seq<real>
    var totalDistance: real
    var currentSegment: nat
    var segmentProgress: real
    var totalDistanceTraveled: real
    /** The interval is set and has not been cleared. */
    var intervalActive: bool
    /** Calls made to `onComplete`. */
    var completions: nat
    /** The component's `simulation` state. */
    var simulation: Option<SimulationState>
    /** Ticks spent on the current segment without leaving it. */
    ghost var dwell: nat

    function Position(): Cursor
      reads this
    {
      Cursor(currentSegment, segmentProgress, totalDistanceTraveled)
    }

    ghost predicate Valid()
      reads this
    {
      && (!created ==> !intervalActive && simulation == None && completions == 0)
      && (created ==>
        && |coordinates| >= 2
        && |segmentDistances| == |coordinates| - 1
        && (forall i :: 0 <= i < |segmentDistances| ==>
              segmentDistances[i] == distanceKm(coordinates[i], coordinates[i + 1]))
        && NonNegative(segmentDistances)
        && totalDistance == Sum(segmentDistances)
        && currentSegment <= |segmentDistances|
        && 0.0 <= segmentProgress < 1.0
        && (currentSegment == |segmentDistances| ==> segmentProgress == 0.0)
        && Accounted(segmentDistances, Position())
        && Paced(segmentDistances, Position(), dwell)
        && simulation.Some?
        && completions <= 1
        && (completions == 1 ==> !intervalActive && currentSegment == |segmentDistances|))
    }

    /** The effect body: nothing is created for a missing route, an inactive
        simulator or a route of fewer than two points; otherwise the initial
        state is stored and the interval set. */
    constructor (route: Option<RouteData>, isActive: bool, distanceKm: DistanceKm)
      ensures Valid() && this.distanceKm == distanceKm
      ensures created <==> route.Some? && isActive && |route.value.coordinates| >= 2
      ensures !created ==> simulation == None && !intervalActive
      ensures created ==>
        && coordinates == route.value.coordinates
        && simulation == Some(SimulationState(coordinates[0], 0, 0.0, 0.0, 0.0, route.value.duration, 0.0))
        && currentSegment == 0 && segmentProgress == 0.0 && totalDistanceTraveled == 0.0
        && intervalActive && completions == 0
        && |segmentDistances| == |coordinates| - 1
        && (forall i :: 0 <= i < |segmentDistances| ==>
              segmentDistances[i] == distanceKm(coordinates[i], coordinates[i + 1]))
        && totalDistance == Sum(segmentDistances)
    {
      this.distanceKm := distanceKm;
      currentSegment, segmentProgress, totalDistanceTraveled := 0, 0.0, 0.0;
      completions, dwell := 0, 0;
      if route.None? || !isActive || |route.value.coordinates| < 2 {
        created, intervalActive, simulation := false, false, None;
        coordinates, segmentDistances, totalDistance := [], [], 0.0;
      } else {
        var coords := route.value.coordinates;
        simulation := Some(SimulationState(coords[0], 0, 0.0, 0.0, 0.0, route.value.duration, 0.0));
        var lengths := SegmentLengths(coords, distanceKm);
        created, coordinates, segmentDistances := true, coords, lengths;
        totalDistance := Sum(lengths);
        intervalActive := true;
        assert lengths[..0] == [];
      }
    }

    /** One firing of the interval. At the last index it clears the interval
        and calls `onComplete`. Otherwise it moves the vehicle; it emits a
        state when the vehicle is still short of the last index, and nothing
        on the tick that reaches it. */
    method Tick(speedDraw: real, variationDraw: real) returns (outcome: TickOutcome)
      requires Valid() && intervalActive
      requires 0.0 <= speedDraw < 1.0 && 0.0 <= variationDraw < 1.0
      modifies this
      ensures Valid() && created
      ensures coordinates == old(coordinates) && segmentDistances == old(segmentDistances)
      ensures totalDistance == old(totalDistance)
      ensures old(currentSegment) <= currentSegment <= old(currentSegment) + 1
      ensures old(currentSegment) == |coordinates| - 1 ==>
        && outcome == Completed && !intervalActive && completions == old(completions) + 1
        && Position() == old(Position()) && simulation == old(simulation)
        && totalDistance <= totalDistanceTraveled <= 2.0 * totalDistance
      ensures old(currentSegment) < |coordinates| - 1 ==>
        dwell == if currentSegment == old(currentSegment) then old(dwell) + 1 else 0
      ensures old(currentSegment) < |coordinates| - 1 ==>
        var kmh := TickSpeed(old(currentSegment), |coordinates|, speedDraw, variationDraw);
        && Position() == Advance(old(Position()), segmentDistances[old(currentSegment)], MoveMeters(kmh))
        && intervalActive && completions == old(completions)
        && (currentSegment == |coordinates| - 1 ==> outcome == Silent && simulation == old(simulation))
        && (currentSegment < |coordinates| - 1 ==>
              outcome == Emitted(Snapshot(coordinates, Position(), totalDistance, kmh))
              && simulation == Some(outcome.state))
    {
      if currentSegment >= |coordinates| - 1 {
        intervalActive := false;
        completions := completions + 1;
        FinishedAccounted(segmentDistances, Position());
        return Completed;
      }
      var kmh := TickSpeed(currentSegment, |coordinates|, speedDraw, variationDraw);
      var moveM := MoveMeters(kmh);
      var before := Position();
      AdvanceAccounted(segmentDistances, before, moveM);
      AdvancePaced(segmentDistances, before, moveM, dwell);
      var after := Advance(before, segmentDistances[currentSegment], moveM);
      currentSegment, segmentProgress, totalDistanceTraveled := after.segment, after.progress, after.traveled;
      dwell := if after.segment == before.segment then dwell + 1 else 0;
      if currentSegment < |coordinates| - 1 {
        var state := Snapshot(coordinates, after, totalDistance, kmh);
        simulation := Some(state);
        outcome := Emitted(state);
      } else {
        outcome := Silent;
      }
    }

    /** The effect's cleanup: the interval is cleared, nothing else changes,
        and no further tick or completion happens. */
    method Stop()
      requires Valid()
      modifies this`intervalActive
      ensures Valid() && !intervalActive
    {
      intervalActive := false;
    }
  }
}
