/** The mock traffic store: a module-level list of incidents, a getter, and
    an update that re-rolls every incident's severity. */
module Traffic {

  import opened Geo

  datatype IncidentType = High | Medium | Low | RoadWork | Accident | Closure

  datatype Severity = Critical | Major | Minor

  datatype TrafficIncident = TrafficIncident(
    id: int,
    kind: IncidentType,
    severity: Severity,
    location: LatLng,
    description: string)

  /** A value of `Math.random()`. */
  type Draw = r: real | 0.0 <= r < 1.0

  /** No two incidents share an id. */
  predicate DistinctIds(xs: seq<TrafficIncident>)
  {
    forall i, j :: 0 <= i < j < |xs| ==> xs[i].id != xs[j].id
  }

  /** The three incidents the store starts with. */
  function SeedIncidents(): (r: seq<TrafficIncident>)
    ensures |r| == 3 && DistinctIds(r)
    ensures forall i :: 0 <= i < |r| ==> r[i].id == i + 1
  {
    [ TrafficIncident(1, High, Major, LatLng(11.005, 76.008), "Heavy traffic on bypass"),
      TrafficIncident(2, RoadWork, Minor, LatLng(10.995, 76.010), "Men at work"),
      TrafficIncident(3, Accident, Critical, LatLng(11.002, 76.001), "Accident, road blocked") ]
  }

  /** `severities[Math.floor(Math.random() * severities.length)]` over
      `["critical", "major", "minor"]`: each severity takes a third of the
      draws, in that order. */
  function PickSeverity(draw: Draw): (s: Severity)
    ensures s == Critical <==> draw < 1.0 / 3.0
    ensures s == Major <==> 1.0 / 3.0 <= draw < 2.0 / 3.0
    ensures s == Minor <==> 2.0 / 3.0 <= draw
  {
    var severities := [Critical, Major, Minor];
    var index := (draw * 3.0).Floor;
    severities[index]
  }

  /** `trafficIncidents.map(incident => ({ ...incident, severity }))`, one
      draw per incident. */
  function Reseverity(xs: seq<TrafficIncident>, draws: seq<Draw>): (r: seq<TrafficIncident>)
    requires |draws| == |xs|
    ensures |r| == |xs|
    ensures forall i :: 0 <= i < |xs| ==>
      && r[i].id == xs[i].id
      && r[i].kind == xs[i].kind
      && r[i].location == xs[i].location
      && r[i].description == xs[i].description
      && r[i].severity == PickSeverity(draws[i])
  {
    if |xs| == 0 then []
    else [xs[0].(severity := PickSeverity(draws[0]))] + Reseverity(xs[1..], draws[1..])
  }

  /** Re-rolling severities never creates nor removes a duplicate id. */
  lemma ReseverityKeepsDistinctIds(xs: seq<TrafficIncident>, draws: seq<Draw>)
    requires |draws| == |xs|
    ensures DistinctIds(Reseverity(xs, draws)) <==> DistinctIds(xs)
  {
    var r := Reseverity(xs, draws);
    if DistinctIds(xs) {
      forall i, j | 0 <= i < j < |r| ensures r[i].id != r[j].id {
        assert r[i].id == xs[i].id && r[j].id == xs[j].id;
      }
    }
    if DistinctIds(r) {
      forall i, j | 0 <= i < j < |xs| ensures xs[i].id != xs[j].id {
        assert r[i].id == xs[i].id && r[j].id == xs[j].id;
      }
    }
  }

  /** Only the latest update matters: two updates in a row leave what the
      second one alone would have left. */
  lemma ReseverityLastWins(xs: seq<TrafficIncident>, first: seq<Draw>, second: seq<Draw>)
    requires |first| == |xs| && |second| == |xs|
    ensures Reseverity(Reseverity(xs, first), second) == Reseverity(xs, second)
  {
    var a := Reseverity(Reseverity(xs, first), second);
    var b := Reseverity(xs, second);
    forall i | 0 <= i < |xs| ensures a[i] == b[i] {
      assert a[i].id == b[i].id && a[i].kind == b[i].kind && a[i].location == b[i].location;
    }
  }

  /** Draws that pick the severities the incidents already have change
      nothing. */
  lemma ReseverityFixedPoint(xs: seq<TrafficIncident>, draws: seq<Draw>)
    requires |draws| == |xs|
    requires forall i :: 0 <= i < |xs| ==> PickSeverity(draws[i]) == xs[i].severity
    ensures Reseverity(xs, draws) == xs
  {
    var r := Reseverity(xs, draws);
    forall i | 0 <= i < |xs| ensures r[i] == xs[i] {
      assert r[i].id == xs[i].id && r[i].kind == xs[i].kind && r[i].location == xs[i].location;
    }
  }

  /** The module-level `trafficIncidents` list and its two exported
      functions. */
  class TrafficStore {
    var trafficIncidents: seq<TrafficIncident>

    ghost predicate Valid()
      reads this
    {
      |trafficIncidents| == 3 && DistinctIds(trafficIncidents)
    }

    constructor ()
      ensures Valid() && trafficIncidents == SeedIncidents()
    {
      trafficIncidents := SeedIncidents();
    }

    /** `getTraffic`: the current list, three incidents with distinct ids. */
    method GetTraffic() returns (r: seq<TrafficIncident>)
      requires Valid()
      ensures r == trafficIncidents
      ensures |r| == 3 && DistinctIds(r)
    {
      r := trafficIncidents;
    }

    /** `updateTraffic`: every incident gets a freshly drawn severity. */
    method UpdateTraffic(draws: seq<Draw>)
      requires Valid() && |draws| == |trafficIncidents|
      modifies this
      ensures Valid()
      ensures trafficIncidents == Reseverity(old(trafficIncidents), draws)
    {
      ReseverityKeepsDistinctIds(trafficIncidents, draws);
      trafficIncidents := Reseverity(trafficIncidents, draws);
    }
  }
}
