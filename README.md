# Route planning and drive simulation — a Dafny model

This project models the logic of a map front end for deliveries, school-bus
runs and emergency trips. The model has four parts:

- **Route layer.** It builds the `lon,lat;lon,lat;…` request for the
  routing service and turns the service's answer into a `RouteData`:
  - coordinates swapped to `[lat, lng]`;
  - turn instructions flattened from the legs;
  - at most two labelled alternatives;
  - a straight-line fallback when no route comes back.
- **Drive simulator.** A vehicle is moved along the route's polyline, one
  timer tick at a time. Its speed depends on where it is in the route, and
  it reports position, progress, distance and ETA.
- **Landing page.** It holds the Set Start / Set End picker, the waypoints
  it hands to the route layer, and a 50-frame straight-line preview
  animation.
- **Incident store.** A list of three mock incidents whose severities an
  update re-rolls.

The files are:

- `Optional.dfy`: `Option`.
- `Geo.dfy`:
  - `LatLng` (the application's `[lat, lng]`) and `LonLat` (the routing
    service's `[lon, lat]`);
  - the great-circle distance `DistanceKm`, left abstract except that it is
    never negative;
  - linear interpolation `Lerp`.
- `Text.dfy`: joining and splitting on a separator, and decimal rendering
  of naturals. The coordinate string and the alternative labels use these.
- `RouteLayer.dfy`: the request, the shaping of the response (`FetchRoute`),
  and the component state (`RouteLayerComponent`).
- `DriveSimulation.dfy`: the simulator's pure step (`Advance` on a
  `Cursor`), the invariants it keeps, and the class `Simulator`:
  - its constructor is the effect body;
  - `Tick` is one firing of the interval;
  - `Stop` is the cleanup.
- `Landing.dfy`: the picker as a value (`Picker`, `Click`, `PressSetStart`,
  `PressSetEnd`), the animation frames, and the class `LandingPage`.
- `Traffic.dfy`: the incidents, `PickSeverity`, `Reseverity`, and the class
  `TrafficStore`.

Some behaviour is modelled exactly as the code does it, and the contracts
say so:

- The simulator adds each tick's partial distance to the distance traveled.
  When the vehicle leaves a segment it also adds the segment's whole length.
  The distance traveled is therefore only bracketed between the route length
  and twice the route length, and `TraveledCanExceedRoute` shows it passing
  the route length.
- The speed band is chosen by `segment / coordinates.length`, not by the
  number of segments.
- The ETA is kilometres divided by metres per second.
- The preview animation never shows its end point, unless start and end coincide.

## Model

| member | source | states |
|---|---|---|
| Geo.LerpOnSegment | src/components/map/DriveSimulation.tsx:102-105 | interpolating between two points gives the start at 0 and the end at 1, and for every t in [0,1] each component lies between the endpoints' components |
| Text.SplitJoin | src/components/map/RouteLayer.tsx:75-77 | joining parts that do not contain the separator and splitting again gives the same parts back |
| Text.DecimalRoundTrip | src/components/map/RouteLayer.tsx:126 | the decimal rendering of a number used in a label reads back as that number |
| Text.DecimalInjective | src/components/map/RouteLayer.tsx:126 | different numbers render to different decimal strings |
| RouteLayer.RequestedPoints | src/components/map/RouteLayer.tsx:72-74 | the request visits start first and end last. In school mode with waypoints, the waypoints come in between in order; otherwise only the two endpoints are requested |
| RouteLayer.RenderPoint | src/components/map/RouteLayer.tsx:76 | an item `lon,lat` contains no `;`, and splitting it at `,` gives the longitude's and the latitude's numerals, in that order |
| RouteLayer.RenderAll | src/components/map/RouteLayer.tsx:75-76 | one rendered `lon,lat` item per point, in the points' order |
| RouteLayer.CoordString | src/components/map/RouteLayer.tsx:75-77 | splitting the coordinate list at `;` gives back one rendered item per point, in order |
| RouteLayer.RequestString | src/components/map/RouteLayer.tsx:72-99 | both branches of the request (waypoint list and hand-built two-point string) equal the coordinate list of the requested points |
| RouteLayer.ParseRenderedPoint | src/components/map/RouteLayer.tsx:76 | when the point's two numbers read back, a rendered `lon,lat` item reads back as the same point, with latitude and longitude in place |
| RouteLayer.ParseRenderedPoints | src/components/map/RouteLayer.tsx:75-76 | when every rendered number reads back, a list of rendered items reads back as the same points in the same order |
| RouteLayer.CoordStringRoundTrip | src/components/map/RouteLayer.tsx:75-77 | when every rendered number reads back, the whole coordinate string reads back as the requested points, so it loses nothing and reorders nothing |
| RouteLayer.SwapAll | src/components/map/RouteLayer.tsx:88 | ingested geometry keeps its length and order; each output point takes its latitude and longitude from the input pair's second and first component |
| RouteLayer.SwapAllInvolution | src/components/map/RouteLayer.tsx:112 | swapping to `[lat, lng]` and back, or back and forth, is the identity in both directions |
| RouteLayer.StepInstructions | src/components/map/RouteLayer.tsx:92 | one instruction per step of a leg, in step order |
| RouteLayer.Instructions | src/components/map/RouteLayer.tsx:91-93 | the `flatMap` over legs; its order, length and contents are stated by InstructionsAppend, InstructionsLength, InstructionAt and InstructionsMembership |
| RouteLayer.InstructionsAppend | src/components/map/RouteLayer.tsx:91-93 | the instructions of two runs of legs are the instructions of the first followed by those of the second |
| RouteLayer.InstructionsLength | src/components/map/RouteLayer.tsx:115-117 | there are exactly as many instructions as steps over all legs |
| RouteLayer.InstructionAt | src/components/map/RouteLayer.tsx:91-93 | step j of leg k is found at position (steps of the earlier legs) + j, so the flattening keeps leg order and step order |
| RouteLayer.InstructionsMembership | src/components/map/RouteLayer.tsx:115-117 | a string is an instruction exactly when some step of some leg carries it |
| RouteLayer.MainRoute | src/components/map/RouteLayer.tsx:87-94 | the primary route has one point per geometry pair, one instruction per step over all legs, and no alternatives yet |
| RouteLayer.AlternativeLabel | src/components/map/RouteLayer.tsx:126 | the label is `Alternative ` followed by a numeral reading i+1 in emergency mode, and `Route ` followed by a numeral reading i+2 otherwise |
| RouteLayer.AlternativeLabelsDistinct | src/components/map/RouteLayer.tsx:126 | two different alternatives never get the same label, in any mode |
| RouteLayer.Alternatives | src/components/map/RouteLayer.tsx:121-127 | the alternatives are the received routes after the primary, at most two, in received order, each with swapped geometry, its own distance and duration, and label `Alternative {i+1}` in emergency mode or `Route {i+2}` otherwise |
| RouteLayer.Fallback | src/components/map/RouteLayer.tsx:144-149 | with no route obtained: the path is just the two endpoints, the distance is the great-circle km times 1000 and is not negative, the duration is that distance's km times 60, there is the single failure instruction, and there are no alternatives |
| RouteLayer.Shaped | src/components/map/RouteLayer.tsx:85-151 | the route `fetchRoute` hands to `setRoute`: the primary route with its alternatives when routes came back, the fallback otherwise; FetchRoute and Refresh are proved to produce it |
| RouteLayer.FetchRoute | src/components/map/RouteLayer.tsx:66-155 | with a non-empty response, the route is the primary one with its swapped geometry, distance, duration and flattened instructions; its alternatives are empty in school mode with waypoints, otherwise those of `Alternatives`, never more than two. Without one, the route is the fallback |
| RouteLayer.RouteLayerComponent.constructor | src/components/map/RouteLayer.tsx:56 | no route, no reports, no requests |
| RouteLayer.RouteLayerComponent.Refresh | src/components/map/RouteLayer.tsx:59-158 | with a missing endpoint the route is cleared, `null` is reported and no request is made; otherwise exactly one request for the requested points is made and the shaped route is stored and reported |
| DriveSimulation.Sum | src/components/map/DriveSimulation.tsx:60 | the `reduce` total of the segment lengths; SumPrefixStep and SumNonNegative state its properties |
| DriveSimulation.SumPrefixStep | src/components/map/DriveSimulation.tsx:60 | the running total of the first k+1 segments is that of the first k plus segment k |
| DriveSimulation.SumNonNegative | src/components/map/DriveSimulation.tsx:60 | the total of non-negative segment lengths is not negative |
| DriveSimulation.SegmentLengths | src/components/map/DriveSimulation.tsx:51-58 | one length per segment (`coordinates.length - 1`), entry i is the distance of points i and i+1, and none is negative |
| DriveSimulation.RealisticSpeed | src/components/map/DriveSimulation.tsx:143-157 | with p = index / count: [20,35) km/h when p < 0.1 or p > 0.9, [45,70) when 0.3 < p < 0.7, [30,50) otherwise |
| DriveSimulation.VariedSpeed | src/components/map/DriveSimulation.tsx:75-76 | the applied speed is at least 80% and below 120% of the base speed |
| DriveSimulation.TickSpeed | src/components/map/DriveSimulation.tsx:74-76 | every tick's speed is in [16,84) km/h |
| DriveSimulation.MoveMeters | src/components/map/DriveSimulation.tsx:79-80 | at 16 km/h or more a frame moves at least 2/27 m |
| DriveSimulation.Eta | src/components/map/DriveSimulation.tsx:109-110 | the ETA times speed/3.6 is the remaining kilometres, and it is non-negative exactly when the distance traveled does not exceed the total |
| DriveSimulation.Advance | src/components/map/DriveSimulation.tsx:82-92 | progress stays in [0,1). The segment grows by at most one, and it grows exactly when the new progress reaches 1 (or the segment is empty). On advancing, progress is reset to 0 and the whole segment length is added; otherwise the progress covers the metres moved and those metres are added |
| DriveSimulation.LeaveAccounted | src/components/map/DriveSimulation.tsx:85-89 | leaving a segment (progress reset to 0, whole length added) keeps the distance bookkeeping |
| DriveSimulation.StayAccounted | src/components/map/DriveSimulation.tsx:90-92 | a partial move that adds the same metres to the covered part and to the distance traveled keeps the bookkeeping |
| DriveSimulation.AdvanceAccounted | src/components/map/DriveSimulation.tsx:83-92 | a tick keeps the distance bookkeeping: the distance traveled lies between (finished segments + covered part) and (twice the finished segments + covered part) |
| DriveSimulation.FinishedAccounted | src/components/map/DriveSimulation.tsx:85-92 | once the last index is reached, the distance traveled is between the route length and twice the route length |
| DriveSimulation.AdvancePaced | src/components/map/DriveSimulation.tsx:79-89 | every tick spent on a segment covers at least the minimal move, and leaving it restarts the count |
| DriveSimulation.DwellBounded | src/components/map/DriveSimulation.tsx:79-89 | fewer than 13500 ticks per kilometre of segment stay on it, and none stay on an empty one; the tick after them leaves it, so every segment is left within 13500 ticks per km plus one |
| DriveSimulation.TraveledCanExceedRoute | src/components/map/DriveSimulation.tsx:85-92 | on a 0.5 m route, two ticks of 0.3 m leave the distance traveled above the route length |
| DriveSimulation.Snapshot | src/components/map/DriveSimulation.tsx:99-120 | the emitted position is `start + (end - start) * progress` of the current segment, so each component lies between the segment's endpoints, and at progress 0 it is the segment's start point; it carries the cursor's segment, progress and distance and the tick's speed; progress times the total is the distance traveled; the ETA times speed/3.6 is the remaining distance |
| DriveSimulation.Simulator.constructor | src/components/map/DriveSimulation.tsx:32-64 | nothing is created for a missing route, an inactive simulator or fewer than two points. Otherwise the initial state is position `coordinates[0]`, segment 0, progress 0, distance 0, ETA the route's duration and speed 0, with one length per segment and their total |
| DriveSimulation.Simulator.Tick | src/components/map/DriveSimulation.tsx:66-125 | at the last index, the interval is cleared and `onComplete` is called once, with the distance traveled between one and two route lengths. Otherwise the vehicle moves by `Advance` at the tick's speed (segment non-decreasing, at most +1, never past the last index), nothing is emitted on the tick that reaches the last index, and any other tick emits the interpolated state; the count of ticks spent on the current segment grows by one, or restarts at 0 when the segment is left, so with DwellBounded fewer than 13500 ticks per km stay on a segment and the next tick leaves it |
| DriveSimulation.Simulator.Stop | src/components/map/DriveSimulation.tsx:127 | the interval is cleared and the state stays consistent |
| Landing.RouteWaypoints | src/pages/Landing.tsx:253 | there are waypoints exactly in school mode, and then they are the pickup points |
| Landing.RequestedFromLanding | src/pages/Landing.tsx:253 | the page's request goes through the four pickup points in school mode and through the two endpoints only otherwise |
| Landing.SchoolHasNoAlternatives | src/pages/Landing.tsx:253 | a route fetched for the page in school mode has no alternatives |
| Landing.Click | src/pages/Landing.tsx:102-111 | with start picking armed, a click sets the start point to the clicked place and disarms start picking; otherwise, with end picking armed, it sets the end point and disarms end picking; with neither armed it changes nothing; no other point ever changes |
| Landing.PressSetStart | src/pages/Landing.tsx:168-171 | Set Start flips start picking, always disarms end picking, and keeps both points |
| Landing.PressSetEnd | src/pages/Landing.tsx:180-183 | Set End flips end picking, always disarms start picking, and keeps both points |
| Landing.PressTwice | src/pages/Landing.tsx:168-183 | pressing the same button twice restores its own flag and leaves the other disarmed |
| Landing.PickStart | src/pages/Landing.tsx:102-171 | arming start picking and clicking sets exactly the start point and leaves both modes disarmed |
| Landing.StepPosition | src/pages/Landing.tsx:134-135 | frame k of the run, `start + step * k`; StepPositionIsLerp and FrameOnSegment state where it lies |
| Landing.FrameStep | src/pages/Landing.tsx:120-122 | fifty steps from the start reach the end exactly |
| Landing.StepPositionIsLerp | src/pages/Landing.tsx:120-135 | frame k of the run is the point k/50 of the way from start to end |
| Landing.FrameOnSegment | src/pages/Landing.tsx:120-136 | every frame the run shows lies between start and end and is never the end point unless start and end coincide |
| Landing.LandingPage.constructor | src/pages/Landing.tsx:64-71 | delivery mode, no points, nothing armed, no run |
| Landing.LandingPage.HandleMapClick | src/pages/Landing.tsx:102-111 | the page's picker becomes `Click` of the old one |
| Landing.LandingPage.PressSetStartButton | src/pages/Landing.tsx:168-171 | the page's picker becomes `PressSetStart` of the old one |
| Landing.LandingPage.PressSetEndButton | src/pages/Landing.tsx:180-183 | the page's picker becomes `PressSetEnd` of the old one |
| Landing.LandingPage.UseCurrentLocationAsStart | src/pages/Landing.tsx:195 | the start point becomes the current location and nothing else in the picker changes |
| Landing.LandingPage.ChangeMode | src/pages/Landing.tsx:157 | the mode becomes the chosen one |
| Landing.LandingPage.StartSimulation | src/pages/Landing.tsx:113-124 | nothing happens unless both points are set; otherwise the run starts at step 0 with the vehicle shown at the start point |
| Landing.LandingPage.SimulationTick | src/pages/Landing.tsx:125-137 | the step counter grows by one. At 50 the run stops and the vehicle is hidden; before that, it is shown at the point step/50 of the way, which is not the end point unless start and end coincide |
| Traffic.SeedIncidents | src/lib/traffic.ts:9-13 | three incidents with ids 1, 2, 3, pairwise distinct |
| Traffic.PickSeverity | src/lib/traffic.ts:23-25 | draws below 1/3 give critical, draws below 2/3 give major, and the rest give minor |
| Traffic.Reseverity | src/lib/traffic.ts:20-27 | the list keeps its length and order; each incident keeps its id, type, location and description, and only its severity is replaced by the drawn one |
| Traffic.ReseverityKeepsDistinctIds | src/lib/traffic.ts:22-26 | after an update the ids are distinct exactly when they were before |
| Traffic.ReseverityLastWins | src/lib/traffic.ts:20-27 | two updates in a row leave what the second alone would have left |
| Traffic.ReseverityFixedPoint | src/lib/traffic.ts:22-26 | draws that pick the severities already present change nothing |
| Traffic.TrafficStore.constructor | src/lib/traffic.ts:9-13 | the store starts as the seed list |
| Traffic.TrafficStore.GetTraffic | src/lib/traffic.ts:15-18 | returns the current list, three incidents with distinct ids, and changes nothing |
| Traffic.TrafficStore.UpdateTraffic | src/lib/traffic.ts:20-27 | the store becomes `Reseverity` of the old list, and still holds three incidents with distinct ids |

## Left out

- The HTTP requests to the routing service. The response is an input, `None` for a failed request and `Some(routes)` for a decoded one. A body that is not valid JSON, or that lacks the expected fields, makes the code throw into the fallback; the model does not represent such bodies.
- Asynchrony: the model runs the fetch and its result in one step. In the code a slow response for old endpoints can land after a newer one.
- RouteLayer.RouteLayerComponent.Refresh: models one run of the effect; when the effect re-runs is not modelled. The effect depends on `waypoints` (src/components/map/RouteLayer.tsx:158), and outside school mode the page passes a new empty array on every render (src/pages/Landing.tsx:253). Once both points are set, every page render therefore sends a new routing request: each Set Start or Set End press, each armed map click, and each 100 ms frame of the preview animation (src/pages/Landing.tsx:136), about 50 requests for one 5 s preview. The model treats the waypoint list as a value and does not capture these repeat requests.
- `isLoading`, the route colours, icons, markers, popups and all rendering.
- The haversine formula is not modelled. It is trigonometry over floating point, so the model takes the distance as an abstract function whose only property is that it is never negative.
- Floating point in general: every number is an exact real. The model has no rounding, no NaN and no infinity, except that a segment of length zero is modelled as "leave the segment at once", which is what dividing by zero to +Infinity does in the code.
- DriveSimulation.Snapshot: with a total distance of 0 the code's `totalProgress` is NaN; the model reports 0. Only routes whose segment lengths are all zero reach this case.
- `Math.random`, `setInterval`/`clearInterval` and `Date.now`. Random values are parameters in [0, 1), and each interval firing is one call of `Tick` or `SimulationTick`. `elapsedTime` is computed but never used in the code.
- Number-to-text rendering in the request string is a parameter `fmt` whose results contain neither `,` nor `;`. The round trip assumes a `parse` that reads back each number rendered for the requested points; the model does not say which numbers JavaScript renders exactly.
- Traffic.TrafficStore.GetTraffic: the code returns the live array, so a caller can mutate the store through it. The model returns a value.
- RouteLayer.FetchRoute: in school mode with an empty waypoint list, the code takes the two-endpoint branch and can return alternatives. School mode has no alternatives only as the page uses the layer, which always passes the four pickup points (`Landing.SchoolHasNoAlternatives`).
- Landing.LandingPage.StartSimulation: requires that no run is in progress, because the button is disabled while simulating (src/pages/Landing.tsx:207). Two overlapping runs are not modelled.
- DriveSimulation.Simulator.Tick: the progress reported after a tick is the distance traveled over the total. Because of the double counting it can exceed 1, so no bound of 1 is claimed.
- Geolocation, place search, the map-view centring and the search-result list on the landing page are not part of this model. They are browser and network I/O with no logic of their own.
- The traffic display, the incident report form, the mode selector and the search box are not part of this model. They are user interface only.
- Rerouting around incidents, incident expiry and incident reporting are not modelled. None of the modelled files implements them, and the report form calls a `reportIncident` that the incident store does not define.
