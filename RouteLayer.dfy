/** The data shaping of the route layer: the coordinate string sent to the
    routing service, the conversion of its response into RouteData, the
    alternatives, and the straight-line fallback. The HTTP exchange itself is an
    input: the response is `None` when the request failed, the status was not
    ok or the body had no `routes`, and `Some(routes)` otherwise. */
module RouteLayer {

  import opened Optional
  import opened Geo
  import opened Text

  /** The three travel modes of the mode selector. */
  datatype MapMode = Delivery | School | Emergency

  /** `step.maneuver.instruction` of one step of a leg. */
  datatype Step = Step(instruction: string)

  datatype Leg = Leg(steps: seq<Step>)

  /** One entry of the response's `routes`: geometry pairs are `[lon, lat]`,
      distance in metres, duration in seconds. */
  datatype RouteJson = RouteJson(geometry: seq<LonLat>, distance: real, duration: real, legs: seq<Leg>)

  /** An entry of `alternativeRoutes`; `kind` is the source's `type` label. */
  datatype AlternativeRoute = AlternativeRoute(coordinates: seq<LatLng>, distance: real, duration: real, kind: string)

  /** RouteData: `alternativeRoutes` is absent (None) on the fallback route. */
  datatype RouteData = RouteData(
    coordinates: seq<LatLng>,
    distance: real,
    duration: real,
    instructions: seq<string>,
    alternativeRoutes: Option<seq<AlternativeRoute>>)

  /** The text a template string gives for a number: digits, a sign, a point,
      an exponent, never a comma or a semicolon. */
  type Numeral = s: string | ',' !in s && ';' !in s

  const FallbackInstruction: string := "Route calculation failed - showing direct path"

  function Min(a: int, b: int): int { if a <= b then a else b }

  // ---------------------------------------------------------------- request

  /** The points the request visits, in order: through every waypoint in school
      mode when there are waypoints, else just the two endpoints. */
  function RequestedPoints(start: LatLng, end: LatLng, mode: MapMode, waypoints: seq<LatLng>): (points: seq<LatLng>)
    ensures |points| >= 2 && points[0] == start && points[|points| - 1] == end
    ensures mode == School && |waypoints| > 0 ==> points[1..|points| - 1] == waypoints
    ensures !(mode == School && |waypoints| > 0) ==> points == [start, end]
  {
    if mode == School && |waypoints| > 0 then [start] + waypoints + [end] else [start, end]
  }

  /** `${coord[1]},${coord[0]}`: longitude first. `fmt` is JavaScript's
      rendering of a number in a template string. */
  function RenderPoint(p: LatLng, fmt: real -> Numeral): (item: string)
    ensures ';' !in item
    ensures Split(item, ',') == [fmt(p.lng), fmt(p.lat)]
  {
    SplitAfterFirst(fmt(p.lng), ',', fmt(p.lat));
    SplitWithoutSeparator(fmt(p.lat), ',');
    fmt(p.lng) + [','] + fmt(p.lat)
  }

  function RenderAll(points: seq<LatLng>, fmt: real -> Numeral): (items: seq<string>)
    ensures |items| == |points|
    ensures forall i :: 0 <= i < |points| ==> items[i] == RenderPoint(points[i], fmt)
  {
    seq(|points|, i requires 0 <= i < |points| => RenderPoint(points[i], fmt))
  }

  /** The `lon,lat;lon,lat;...` list of the request URL: splitting it at `;`
      gives one item per point, in order. */
  function CoordString(points: seq<LatLng>, fmt: real -> Numeral): (s: string)
    ensures |points| >= 1 ==> Split(s, ';') == RenderAll(points, fmt)
  {
    var items := RenderAll(points, fmt);
    if |points| == 0 then Join(items, ';')
    else
      assert forall i :: 0 <= i < |items| ==> ';' !in items[i];
      SplitJoin(items, ';');
      Join(items, ';')
  }

  /** The coordinate string as each branch of `fetchRoute` builds it; both
      render exactly the requested points, in order. */
  function RequestString(start: LatLng, end: LatLng, mode: MapMode, waypoints: seq<LatLng>, fmt: real -> Numeral): (s: string)
    ensures s == CoordString(RequestedPoints(start, end, mode, waypoints), fmt)
  {
    if mode == School && |waypoints| > 0 then CoordString([start] + waypoints + [end], fmt)
    else
      var items := RenderAll([start, end], fmt);
      assert items[0] == RenderPoint(start, fmt);
      assert items[1..] == [RenderPoint(end, fmt)];
      assert Join(items[1..], ';') == RenderPoint(end, fmt);
      RenderPoint(start, fmt) + [';'] + RenderPoint(end, fmt)
  }

  /** `parse` reads back every number rendered for the points. */
  predicate ReadsBack(points: seq<LatLng>, fmt: real -> Numeral, parse: string -> real)
  {
    forall i :: 0 <= i < |points| ==>
      parse(fmt(points[i].lng)) == points[i].lng && parse(fmt(points[i].lat)) == points[i].lat
  }

  /** The receiving side of the coordinate list: the partner of CoordString. */
  function ParsePoint(item: string, parse: string -> real): Option<LatLng>
  {
    var fields := Split(item, ',');
    if |fields| == 2 then Some(LatLng(parse(fields[1]), parse(fields[0]))) else None
  }

  function ParsePoints(items: seq<string>, parse: string -> real): Option<seq<LatLng>>
  {
    if items == [] then Some([])
    else
      var head := ParsePoint(items[0], parse);
      var tail := ParsePoints(items[1..], parse);
      if head.Some? && tail.Some? then Some([head.value] + tail.value) else None
  }

  function ParseCoordString(s: string, parse: string -> real): Option<seq<LatLng>>
  {
    ParsePoints(Split(s, ';'), parse)
  }

  lemma ParseRenderedPoint(p: LatLng, fmt: real -> Numeral, parse: string -> real)
    requires parse(fmt(p.lng)) == p.lng && parse(fmt(p.lat)) == p.lat
    ensures ParsePoint(RenderPoint(p, fmt), parse) == Some(p)
  {
  }

  lemma {:induction false} ParseRenderedPoints(points: seq<LatLng>, fmt: real -> Numeral, parse: string -> real)
    requires ReadsBack(points, fmt, parse)
    ensures ParsePoints(RenderAll(points, fmt), parse) == Some(points)
  {
    if points != [] {
      var items := RenderAll(points, fmt);
      assert items[1..] == RenderAll(points[1..], fmt);
      assert ReadsBack(points[1..], fmt, parse) by {
        forall i | 0 <= i < |points[1..]|
          ensures parse(fmt(points[1..][i].lng)) == points[1..][i].lng && parse(fmt(points[1..][i].lat)) == points[1..][i].lat
        {
          assert points[1..][i] == points[i + 1];
        }
      }
      ParseRenderedPoint(points[0], fmt, parse);
      ParseRenderedPoints(points[1..], fmt, parse);
      assert [points[0]] + points[1..] == points;
    }
  }

  /** The coordinate list determines the requested points: reading it back
      yields them, same count, same order, longitude and latitude in place. */
  lemma CoordStringRoundTrip(points: seq<LatLng>, fmt: real -> Numeral, parse: string -> real)
    requires |points| >= 1
    requires ReadsBack(points, fmt, parse)
    ensures ParseCoordString(CoordString(points, fmt), parse) == Some(points)
  {
    ParseRenderedPoints(points, fmt, parse);
  }

  // --------------------------------------------------------------- response

  /** `coord => [coord[1], coord[0]]`. */
  function SwapAxes(c: LonLat): LatLng
  {
    LatLng(c.lat, c.lon)
  }

  /** The same swap in the other direction. */
  function ToWire(p: LatLng): LonLat
  {
    LonLat(p.lng, p.lat)
  }

  /** The ingested geometry: each `[lon, lat]` becomes `[lat, lon]`, in order. */
  function SwapAll(coords: seq<LonLat>): (r: seq<LatLng>)
    ensures |r| == |coords|
    ensures forall i :: 0 <= i < |coords| ==> r[i].lat == coords[i].lat && r[i].lng == coords[i].lon
  {
    seq(|coords|, i requires 0 <= i < |coords| => SwapAxes(coords[i]))
  }

  function WireAll(points: seq<LatLng>): (r: seq<LonLat>)
    ensures |r| == |points|
    ensures forall i :: 0 <= i < |points| ==> r[i] == ToWire(points[i])
  {
    seq(|points|, i requires 0 <= i < |points| => ToWire(points[i]))
  }

  /** Swapping twice gives the coordinates back, in both directions. */
  lemma SwapAllInvolution(coords: seq<LonLat>, points: seq<LatLng>)
    ensures WireAll(SwapAll(coords)) == coords
    ensures SwapAll(WireAll(points)) == points
  {
    var r := WireAll(SwapAll(coords));
    assert forall i :: 0 <= i < |coords| ==> r[i] == coords[i];
    var q := SwapAll(WireAll(points));
    assert forall i :: 0 <= i < |points| ==> q[i] == points[i];
  }

  /** `leg.steps.map(step => step.maneuver.instruction)`. */
  function StepInstructions(steps: seq<Step>): (r: seq<string>)
    ensures |r| == |steps|
    ensures forall j :: 0 <= j < |steps| ==> r[j] == steps[j].instruction
  {
    seq(|steps|, j requires 0 <= j < |steps| => steps[j].instruction)
  }

  /** `legs.flatMap(...)`: the instructions of every step of every leg. */
  function Instructions(legs: seq<Leg>): seq<string>
  {
    if legs == [] then [] else StepInstructions(legs[0].steps) + Instructions(legs[1..])
  }

  /** Number of steps in the legs before leg k. */
  function StepsBefore(legs: seq<Leg>, k: nat): nat
    requires k <= |legs|
  {
    if k == 0 then 0 else StepsBefore(legs, k - 1) + |legs[k - 1].steps|
  }

  lemma {:induction false} InstructionsAppend(a: seq<Leg>, b: seq<Leg>)
    ensures Instructions(a + b) == Instructions(a) + Instructions(b)
  {
    if a != [] {
      assert (a + b)[1..] == a[1..] + b;
      InstructionsAppend(a[1..], b);
    } else {
      assert a + b == b;
    }
  }

  lemma {:induction false} InstructionsLength(legs: seq<Leg>)
    ensures |Instructions(legs)| == StepsBefore(legs, |legs|)
  {
    if legs != [] {
      var init := legs[..|legs| - 1];
      assert legs == init + [legs[|legs| - 1]];
      InstructionsAppend(init, [legs[|legs| - 1]]);
      InstructionsLength(init);
      StepsBeforePrefix(legs, |legs| - 1);
      assert Instructions([legs[|legs| - 1]]) == StepInstructions(legs[|legs| - 1].steps) + Instructions([]);
    }
  }

  /** StepsBefore(legs, k) depends only on the first k legs. */
  lemma {:induction false} StepsBeforeAgree(a: seq<Leg>, b: seq<Leg>, k: nat)
    requires k <= |a| && k <= |b| && a[..k] == b[..k]
    ensures StepsBefore(a, k) == StepsBefore(b, k)
    decreases k
  {
    if k > 0 {
      assert a[k - 1] == a[..k][k - 1] == b[..k][k - 1] == b[k - 1];
      assert a[..k - 1] == a[..k][..k - 1] && b[..k - 1] == b[..k][..k - 1];
      StepsBeforeAgree(a, b, k - 1);
    }
  }

  lemma StepsBeforePrefix(legs: seq<Leg>, k: nat)
    requires k <= |legs|
    ensures StepsBefore(legs[..k], k) == StepsBefore(legs, k)
  {
    assert legs[..k][..k] == legs[..k];
    StepsBeforeAgree(legs[..k], legs, k);
  }

  /** In-order flattening: step j of leg k is found right after the steps of
      the legs before it. */
  lemma {:induction false} InstructionAt(legs: seq<Leg>, k: nat, j: nat)
    requires k < |legs| && j < |legs[k].steps|
    ensures StepsBefore(legs, k) + j < |Instructions(legs)|
    ensures Instructions(legs)[StepsBefore(legs, k) + j] == legs[k].steps[j].instruction
  {
    var init := legs[..k];
    var rest := legs[k..];
    assert legs == init + rest;
    InstructionsAppend(init, rest);
    InstructionsLength(init);
    StepsBeforePrefix(legs, k);
    assert |init| == k;
    assert Instructions(rest) == StepInstructions(legs[k].steps) + Instructions(rest[1..]);
  }

  /** Nothing but step instructions appears, and every one of them does. */
  lemma {:induction false} InstructionsMembership(legs: seq<Leg>, x: string)
    ensures x in Instructions(legs) <==>
      exists k, j :: 0 <= k < |legs| && 0 <= j < |legs[k].steps| && legs[k].steps[j].instruction == x
  {
    if legs != [] {
      InstructionsMembership(legs[1..], x);
      var head := StepInstructions(legs[0].steps);
      assert x in Instructions(legs) <==> x in head || x in Instructions(legs[1..]);
      if x in head {
        var j :| 0 <= j < |head| && head[j] == x;
        assert legs[0].steps[j].instruction == x;
      }
      if x in Instructions(legs[1..]) {
        var k, j :| 0 <= k < |legs[1..]| && 0 <= j < |legs[1..][k].steps| && legs[1..][k].steps[j].instruction == x;
        assert legs[k + 1].steps[j].instruction == x;
      }
      if exists k, j :: 0 <= k < |legs| && 0 <= j < |legs[k].steps| && legs[k].steps[j].instruction == x {
        var k, j :| 0 <= k < |legs| && 0 <= j < |legs[k].steps| && legs[k].steps[j].instruction == x;
        if k == 0 {
          assert head[j] == x;
        } else {
          assert legs[1..][k - 1].steps[j].instruction == x;
        }
      }
    }
  }

  /** The primary route as built from `data.routes[0]`, before line 134 sets
      its alternatives. */
  function MainRoute(r: RouteJson): (route: RouteData)
    ensures |route.coordinates| == |r.geometry|
    ensures |route.instructions| == StepsBefore(r.legs, |r.legs|)
    ensures route.alternativeRoutes == None
  {
    InstructionsLength(r.legs);
    RouteData(SwapAll(r.geometry), r.distance, r.duration, Instructions(r.legs), None)
  }

  /** `Alternative {i+1}` in emergency mode, `Route {i+2}` otherwise. */
  function AlternativeLabel(mode: MapMode, index: nat): (name: string)
    ensures mode == Emergency ==> |name| > 12 && name[..12] == "Alternative " && Numbered(name[12..], index + 1)
    ensures mode != Emergency ==> |name| > 6 && name[..6] == "Route " && Numbered(name[6..], index + 2)
  {
    DecimalRoundTrip(index + 1);
    DecimalRoundTrip(index + 2);
    if mode == Emergency then "Alternative " + DecimalString(index + 1)
    else "Route " + DecimalString(index + 2)
  }

  /** A decimal numeral whose value is n. */
  predicate Numbered(s: string, n: nat)
  {
    (forall i :: 0 <= i < |s| ==> '0' <= s[i] <= '9') && DecimalValue(s) == n
  }

  /** Labels of different alternatives differ: the number after the prefix
      reads back as the index. */
  lemma AlternativeLabelsDistinct(mode: MapMode, i: nat, j: nat)
    requires i != j
    ensures AlternativeLabel(mode, i) != AlternativeLabel(mode, j)
  {
  }

  /** `data.routes.slice(1, 3).map(...)`: at most two alternatives, the
      received routes after the primary, in received order. */
  function Alternatives(routes: seq<RouteJson>, mode: MapMode): (alts: seq<AlternativeRoute>)
    requires |routes| >= 1
    ensures |alts| == Min(|routes|, 3) - 1 && |alts| <= 2
    ensures forall i :: 0 <= i < |alts| ==>
      alts[i] == AlternativeRoute(SwapAll(routes[i + 1].geometry), routes[i + 1].distance,
                                  routes[i + 1].duration, AlternativeLabel(mode, i))
  {
    var picked := routes[1..Min(|routes|, 3)];
    seq(|picked|, i requires 0 <= i < |picked| =>
      AlternativeRoute(SwapAll(picked[i].geometry), picked[i].distance, picked[i].duration, AlternativeLabel(mode, i)))
  }

  /** The straight-line route used when no route was obtained: distance in
      metres and duration as the same distance times 60. */
  function Fallback(start: LatLng, end: LatLng, distanceKm: DistanceKm): (r: RouteData)
    ensures r.coordinates == [start, end]
    ensures r.distance == distanceKm(start, end) * 1000.0 && r.distance >= 0.0
    ensures r.duration * 1000.0 == r.distance * 60.0
    ensures r.instructions == [FallbackInstruction] && r.alternativeRoutes == None
  {
    var d := distanceKm(start, end);
    RouteData([start, end], d * 1000.0, d * 60.0, [FallbackInstruction], None)
  }

  /** A route was obtained: the response exists and holds at least one route. */
  predicate Obtained(response: Option<seq<RouteJson>>)
  {
    response.Some? && |response.value| > 0
  }

  /** What `fetchRoute` hands to `setRoute`: the primary route of the response
      with its alternatives (always none in the waypoint branch), or the
      fallback when no route was obtained. */
  predicate Shaped(route: RouteData, start: LatLng, end: LatLng, mode: MapMode, waypoints: seq<LatLng>,
                   response: Option<seq<RouteJson>>, distanceKm: DistanceKm)
  {
    if Obtained(response) then
      var primary := response.value[0];
      && route.coordinates == SwapAll(primary.geometry)
      && route.distance == primary.distance
      && route.duration == primary.duration
      && route.instructions == Instructions(primary.legs)
      && route.alternativeRoutes == Some(if mode == School && |waypoints| > 0 then [] else Alternatives(response.value, mode))
    else
      route == Fallback(start, end, distanceKm)
  }

  /** The body of `fetchRoute` after the request: the main route and the
      alternatives are assigned in stages and joined at the end. */
  method FetchRoute(start: LatLng, end: LatLng, mode: MapMode, waypoints: seq<LatLng>,
                    response: Option<seq<RouteJson>>, distanceKm: DistanceKm)
    returns (route: RouteData)
    ensures Shaped(route, start, end, mode, waypoints, response, distanceKm)
    ensures route.alternativeRoutes.Some? ==> |route.alternativeRoutes.value| <= 2
  {
    var mainRoute: Option<RouteData> := None;
    var alternativeRoutes: seq<AlternativeRoute> := [];
    if mode == School && |waypoints| > 0 {
      if response.Some? && |response.value| > 0 {
        mainRoute := Some(MainRoute(response.value[0]));
      }
    } else {
      if response.Some? && |response.value| > 0 {
        mainRoute := Some(MainRoute(response.value[0]));
        if |response.value| > 1 {
          alternativeRoutes := Alternatives(response.value, mode);
        }
      }
    }
    if mainRoute.Some? {
      route := mainRoute.value.(alternativeRoutes := Some(alternativeRoutes));
    } else {
      route := Fallback(start, end, distanceKm);
    }
  }

  /** The route layer's state: the current route, the calls made to
      `onRouteCalculated`, and the coordinate lists of the requests issued. */
  class RouteLayerComponent {
    var route: Option<RouteData>
    var calculated: seq<Option<RouteData>>
    var requests: seq<string>

    constructor ()
      ensures route == None && calculated == [] && requests == []
    {
      route := None;
      calculated := [];
      requests := [];
    }

    /** One run of the effect: with an endpoint missing, clear the route and
        report null without any request; otherwise request the route and
        store and report what `fetchRoute` builds from the response. */
    method Refresh(start: Option<LatLng>, end: Option<LatLng>, mode: MapMode, waypoints: seq<LatLng>,
                   response: Option<seq<RouteJson>>, fmt: real -> Numeral, distanceKm: DistanceKm)
      modifies this
      ensures start.None? || end.None? ==>
        route == None && calculated == old(calculated) + [None] && requests == old(requests)
      ensures start.Some? && end.Some? ==>
        && route.Some?
        && Shaped(route.value, start.value, end.value, mode, waypoints, response, distanceKm)
        && calculated == old(calculated) + [route]
        && requests == old(requests) + [RequestString(start.value, end.value, mode, waypoints, fmt)]
    {
      if start.None? || end.None? {
        route := None;
        calculated := calculated + [None];
        return;
      }
      requests := requests + [RequestString(start.value, end.value, mode, waypoints, fmt)];
      var built := FetchRoute(start.value, end.value, mode, waypoints, response, distanceKm);
      route := Some(built);
      calculated := calculated + [route];
    }
  }
}
