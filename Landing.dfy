/** The landing page's own logic: the start/end picker driven by the two
    toggle buttons and map clicks, the straight-line preview animation, and
    the waypoints it hands to the route layer. */
module Landing {

  import opened Optional
  import opened Geo
  import opened RouteLayer

  /** Frames of the straight-line animation. */
  const Steps: nat := 50

  /** The fixed school-bus pickup points. */
  const SchoolPickupPoints: seq<LatLng> :=
    [LatLng(51.510, -0.095), LatLng(51.512, -0.100), LatLng(51.508, -0.085), LatLng(51.515, -0.092)]

  /** `waypoints={mode === "school" ? schoolPickupPoints : []}`. */
  function RouteWaypoints(mode: MapMode): (waypoints: seq<LatLng>)
    ensures |waypoints| > 0 <==> mode == School
    ensures waypoints == [] || waypoints == SchoolPickupPoints
  {
    if mode == School then SchoolPickupPoints else []
  }

  /** The route the page requests visits the four pickup points in order in
      school mode, and only the two endpoints otherwise. */
  lemma RequestedFromLanding(start: LatLng, end: LatLng, mode: MapMode)
    ensures RequestedPoints(start, end, mode, RouteWaypoints(mode)) ==
      if mode == School then [start] + SchoolPickupPoints + [end] else [start, end]
  {
  }

  /** In school mode, as the page drives it, a route never has alternatives. */
  lemma SchoolHasNoAlternatives(route: RouteData, start: LatLng, end: LatLng,
                                response: Option<seq<RouteJson>>, distanceKm: DistanceKm)
    requires Shaped(route, start, end, School, RouteWaypoints(School), response, distanceKm)
    ensures route.alternativeRoutes == None || route.alternativeRoutes == Some([])
  {
  }

  // ----------------------------------------------------------- the picker

  /** The picker's part of the page state. */
  datatype Picker = Picker(startPoint: Option<LatLng>, endPoint: Option<LatLng>, isSettingStart: bool, isSettingEnd: bool)

  /** At most one of the two pick modes is armed. */
  predicate Exclusive(p: Picker)
  {
    !(p.isSettingStart && p.isSettingEnd)
  }

  /** `handleMapClick`: a click sets the point being picked and disarms its
      pick mode; with no pick mode armed it changes nothing. */
  function Click(p: Picker, at: LatLng): (r: Picker)
    ensures r.startPoint != p.startPoint ==> p.isSettingStart && r.startPoint == Some(at)
    ensures r.endPoint != p.endPoint ==> !p.isSettingStart && p.isSettingEnd && r.endPoint == Some(at)
    ensures p.isSettingStart ==> r == p.(startPoint := Some(at), isSettingStart := false)
    ensures !p.isSettingStart && p.isSettingEnd ==> r == p.(endPoint := Some(at), isSettingEnd := false)
    ensures !p.isSettingStart && !p.isSettingEnd ==> r == p
    ensures Exclusive(p) ==> !r.isSettingStart && !r.isSettingEnd
  {
    if p.isSettingStart then p.(startPoint := Some(at), isSettingStart := false)
    else if p.isSettingEnd then p.(endPoint := Some(at), isSettingEnd := false)
    else p
  }

  /** The Set Start button: flips start picking and disarms end picking. */
  function PressSetStart(p: Picker): (r: Picker)
    ensures Exclusive(r) && !r.isSettingEnd
    ensures r.isSettingStart == !p.isSettingStart
    ensures r.startPoint == p.startPoint && r.endPoint == p.endPoint
  {
    p.(isSettingStart := !p.isSettingStart, isSettingEnd := false)
  }

  /** The Set End button: flips end picking and disarms start picking. */
  function PressSetEnd(p: Picker): (r: Picker)
    ensures Exclusive(r) && !r.isSettingStart
    ensures r.isSettingEnd == !p.isSettingEnd
    ensures r.startPoint == p.startPoint && r.endPoint == p.endPoint
  {
    p.(isSettingEnd := !p.isSettingEnd, isSettingStart := false)
  }

  /** Pressing a button twice gives its own pick mode back its old value and
      leaves the other pick mode disarmed; the points do not change. */
  lemma PressTwice(p: Picker)
    ensures PressSetStart(PressSetStart(p)) == p.(isSettingEnd := false)
    ensures PressSetEnd(PressSetEnd(p)) == p.(isSettingStart := false)
  {
  }

  /** Arming start picking and clicking sets exactly the start point. */
  lemma PickStart(p: Picker, at: LatLng)
    requires !p.isSettingStart
    ensures Click(PressSetStart(p), at) ==
      Picker(Some(at), p.endPoint, false, false)
  {
  }

  // ------------------------------------------------ the straight-line run

  /** `startPoint + step * k`, component by component, with the per-frame
      steps computed once when the run starts. */
  function StepPosition(origin: LatLng, latStep: real, lngStep: real, k: nat): LatLng
  {
    LatLng(origin.lat + latStep * k as real, origin.lng + lngStep * k as real)
  }

  /** The per-frame step `(end - start) / 50` of each component: fifty
      steps from the start reach the end. */
  function FrameStep(start: LatLng, end: LatLng): (step: LatLng)
    ensures StepPosition(start, step.lat, step.lng, Steps) == end
  {
    LatLng((end.lat - start.lat) / Steps as real, (end.lng - start.lng) / Steps as real)
  }

  /** Frame k is the point k/50 of the way from start to end. */
  lemma StepPositionIsLerp(start: LatLng, end: LatLng, k: nat)
    ensures StepPosition(start, FrameStep(start, end).lat, FrameStep(start, end).lng, k) ==
      Lerp(start, end, k as real / Steps as real)
  {
    var d := FrameStep(start, end);
    var t := k as real / Steps as real;
    assert Steps as real == 50.0;
    assert d.lat * k as real == (end.lat - start.lat) * t;
    assert d.lng * k as real == (end.lng - start.lng) * t;
  }

  /** A frame of the run lies between start and end, and no frame the run
      shows (0 <= k < 50) is the end point itself unless start and end
      coincide. */
  lemma FrameOnSegment(start: LatLng, end: LatLng, k: nat)
    requires k < Steps
    ensures var q := StepPosition(start, FrameStep(start, end).lat, FrameStep(start, end).lng, k);
      && Within(q.lat, start.lat, end.lat) && Within(q.lng, start.lng, end.lng)
      && (q == end ==> start == end)
  {
    var t := k as real / Steps as real;
    StepPositionIsLerp(start, end, k);
    LerpOnSegment(start, end, t);
    var q := Lerp(start, end, t);
    if q == end {
      assert (end.lat - start.lat) * (1.0 - t) == 0.0;
      assert (end.lng - start.lng) * (1.0 - t) == 0.0;
      assert 1.0 - t > 0.0;
      ZeroProduct(end.lat - start.lat, 1.0 - t);
      ZeroProduct(end.lng - start.lng, 1.0 - t);
    }
  }

  lemma ZeroProduct(x: real, y: real)
    requires x * y == 0.0 && y != 0.0
    ensures x == 0.0
  {
  }

  /** The page: mode, picker, and the straight-line run with the values its
      interval captured. */
  class LandingPage {
    var mode: MapMode
    var startPoint: Option<LatLng>
    var endPoint: Option<LatLng>
    var isSettingStart: bool
    var isSettingEnd: bool
    var isSimulating: bool
    var simulationPosition: Option<LatLng>
    /** The animation interval is set and has not been cleared. */
    var intervalActive: bool
    var currentStep: nat
    /** `startPoint`, `latStep` and `lngStep` as the running interval captured them. */
    var origin: LatLng
    var latStep: real
    var lngStep: real
    /** The end point the running interval heads for. */
    ghost var destination: LatLng

    function View(): Picker
      reads this
    {
      Picker(startPoint, endPoint, isSettingStart, isSettingEnd)
    }

    ghost predicate Valid()
      reads this
    {
      && Exclusive(View())
      && isSimulating == intervalActive
      && (intervalActive ==>
            && currentStep < Steps
            && latStep == FrameStep(origin, destination).lat
            && lngStep == FrameStep(origin, destination).lng
            && simulationPosition == Some(StepPosition(origin, latStep, lngStep, currentStep)))
      && (!intervalActive ==> simulationPosition == None)
    }

    /** The initial page state: delivery mode, nothing picked, no run. */
    constructor ()
      ensures Valid()
      ensures mode == Delivery && View() == Picker(None, None, false, false)
      ensures !isSimulating && simulationPosition == None
    {
      mode := Delivery;
      startPoint, endPoint := None, None;
      isSettingStart, isSettingEnd := false, false;
      isSimulating, simulationPosition := false, None;
      intervalActive, currentStep := false, 0;
      origin, latStep, lngStep := LatLng(0.0, 0.0), 0.0, 0.0;
      destination := LatLng(0.0, 0.0);
    }

    method HandleMapClick(at: LatLng)
      requires Valid()
      modifies this`startPoint, this`endPoint, this`isSettingStart, this`isSettingEnd
      ensures Valid()
      ensures View() == Click(old(View()), at)
    {
      if isSettingStart {
        startPoint := Some(at);
        isSettingStart := false;
      } else if isSettingEnd {
        endPoint := Some(at);
        isSettingEnd := false;
      }
    }

    method PressSetStartButton()
      requires Valid()
      modifies this`isSettingStart, this`isSettingEnd
      ensures Valid()
      ensures View() == PressSetStart(old(View()))
    {
      isSettingStart := !isSettingStart;
      isSettingEnd := false;
    }

    method PressSetEndButton()
      requires Valid()
      modifies this`isSettingStart, this`isSettingEnd
      ensures Valid()
      ensures View() == PressSetEnd(old(View()))
    {
      isSettingEnd := !isSettingEnd;
      isSettingStart := false;
    }

    /** "Use Current Location as Start". */
    method UseCurrentLocationAsStart(currentLocation: LatLng)
      requires Valid()
      modifies this`startPoint
      ensures Valid()
      ensures View() == old(View()).(startPoint := Some(currentLocation))
    {
      startPoint := Some(currentLocation);
    }

    method ChangeMode(m: MapMode)
      requires Valid()
      modifies this`mode
      ensures Valid() && mode == m
    {
      mode := m;
    }

    /** `startSimulation`: does nothing unless both points are set; otherwise
        shows the vehicle at the start point and sets the interval. The
        button is disabled while a run is in progress. */
    method StartSimulation()
      requires Valid() && !isSimulating
      modifies this
      ensures Valid()
      ensures View() == old(View()) && mode == old(mode)
      ensures startPoint.None? || endPoint.None? ==>
        !isSimulating && simulationPosition == old(simulationPosition)
      ensures startPoint.Some? && endPoint.Some? ==>
        && isSimulating && currentStep == 0
        && simulationPosition == startPoint
        && origin == startPoint.value && destination == endPoint.value
    {
      if startPoint.None? || endPoint.None? {
        return;
      }
      isSimulating := true;
      simulationPosition := startPoint;
      var step := FrameStep(startPoint.value, endPoint.value);
      origin, latStep, lngStep := startPoint.value, step.lat, step.lng;
      destination := endPoint.value;
      currentStep := 0;
      intervalActive := true;
    }

    /** One firing of the animation interval: the counter moves on; at 50 the
        run stops and the vehicle disappears without being shown at the end
        point, otherwise it is shown at frame `currentStep`. */
    method SimulationTick()
      requires Valid() && intervalActive
      modifies this`currentStep, this`isSimulating, this`simulationPosition, this`intervalActive
      ensures Valid()
      ensures View() == old(View())
      ensures currentStep == old(currentStep) + 1
      ensures currentStep >= Steps ==> !isSimulating && !intervalActive && simulationPosition == None
      ensures currentStep < Steps ==>
        && isSimulating
        && simulationPosition == Some(Lerp(origin, destination, currentStep as real / Steps as real))
        && (simulationPosition == Some(destination) ==> origin == destination)
    {
      currentStep := currentStep + 1;
      if currentStep >= Steps {
        isSimulating := false;
        simulationPosition := None;
        intervalActive := false;
        return;
      }
      StepPositionIsLerp(origin, destination, currentStep);
      FrameOnSegment(origin, destination, currentStep);
      simulationPosition := Some(StepPosition(origin, latStep, lngStep, currentStep));
    }
  }
}
