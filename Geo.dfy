/** Positions, the abstract great-circle distance and straight-line interpolation. */
module Geo {

  /** A map position as the application stores it, `[lat, lng]`. */
  datatype LatLng = LatLng(lat: real, lng: real)

  /** A coordinate pair as the routing service sends it, `[lon, lat]`. */
  datatype LonLat = LonLat(lon: real, lat: real)

  /** The haversine distance in kilometres. Its trigonometry is not modelled:
      any function that never returns a negative value stands for it. */
  type DistanceKm = f: (LatLng, LatLng) -> real | forall a: LatLng, b: LatLng :: f(a, b) >= 0.0
    witness (a: LatLng, b: LatLng) => 0.0

  /** `start + (end - start) * t`, component by component, in lat/lng space. */
  function Lerp(start: LatLng, end: LatLng, t: real): LatLng
  {
    LatLng(start.lat + (end.lat - start.lat) * t, start.lng + (end.lng - start.lng) * t)
  }

  /** x lies on the closed interval between a and b, in either order. */
  predicate Within(x: real, a: real, b: real)
  {
    (a <= x <= b) || (b <= x <= a)
  }

  lemma ProductNonNegative(x: real, y: real)
    requires x >= 0.0 && y >= 0.0
    ensures x * y >= 0.0
  {
  }

  lemma ScaledWithin(a: real, b: real, t: real)
    requires 0.0 <= t <= 1.0
    ensures Within(a + (b - a) * t, a, b)
  {
    if a <= b {
      ProductNonNegative(b - a, t);
      ProductNonNegative(b - a, 1.0 - t);
      assert (b - a) - (b - a) * t == (b - a) * (1.0 - t);
    } else {
      ProductNonNegative(a - b, t);
      ProductNonNegative(a - b, 1.0 - t);
      assert (b - a) * t == -((a - b) * t);
      assert (a - b) - (a - b) * t == (a - b) * (1.0 - t);
    }
  }

  /** Interpolation starts at the start point, ends at the end point, and for a
      parameter in [0, 1] stays inside the box the two points span. */
  lemma LerpOnSegment(start: LatLng, end: LatLng, t: real)
    requires 0.0 <= t <= 1.0
    ensures Lerp(start, end, 0.0) == start && Lerp(start, end, 1.0) == end
    ensures Within(Lerp(start, end, t).lat, start.lat, end.lat)
    ensures Within(Lerp(start, end, t).lng, start.lng, end.lng)
  {
    ScaledWithin(start.lat, end.lat, t);
    ScaledWithin(start.lng, end.lng, t);
  }
}
