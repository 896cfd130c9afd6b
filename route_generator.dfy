/** The synthetic route trail of a truck: `points` samples interpolated
    linearly from a start position to the current one, each jittered by at
    most 0.001 degree per axis, with timestamps spread over the eight hours
    before "now". Times are milliseconds; "now" and the random draws are
    parameters. */
module RouteGenerator {
  import opened Sim

  datatype RoutePoint = RoutePoint(latitude: real, longitude: real, timestamp: real)

  /** The number of points a trail has when the caller gives none. */
  const DefaultPoints: nat := 20

  /** Eight hours in milliseconds: the time the trail spans. */
  const SpanMs: real := 28800000.0

  /** `i / (points - 1)`: how far along the trail point i lies. */
  function Ratio(i: nat, points: nat): (ratio: real)
    requires i < points && points >= 2
    ensures 0.0 <= ratio <= 1.0
    ensures ratio == 0.0 <==> i == 0
    ensures ratio == 1.0 <==> i == points - 1
  {
    var d := (points - 1) as real;
    var ratio := i as real / d;
    assert ratio * d == i as real;
    assert d / d == 1.0;
    assert i == points - 1 ==> ratio == d / d;
    ratio
  }

  /** The point of the straight line from a to b at fraction `ratio`. */
  function Lerp(a: real, b: real, ratio: real): real {
    a + (b - a) * ratio
  }

  /** `(Math.random() - 0.5) * 0.002`: the jitter added to each coordinate. */
  function Jitter(r: Draw): (j: real)
    ensures -0.001 <= j < 0.001
    ensures j == 0.0 <==> r == 0.5
  {
    Centered(r, 0.002)
  }

  /** Point i of the trail, given the two draws that jitter its latitude and longitude. */
  function PointAt(startLat: real, startLng: real, currentLat: real, currentLng: real,
                   points: nat, i: nat, now: real, rLat: Draw, rLng: Draw): RoutePoint
    requires i < points && points >= 2
  {
    var ratio := Ratio(i, points);
    var timeOffset := SpanMs * ratio;
    RoutePoint(Lerp(startLat, currentLat, ratio) + Jitter(rLat),
               Lerp(startLng, currentLng, ratio) + Jitter(rLng),
               now - (SpanMs - timeOffset))
  }

  /** Every point lies within 0.001 degree, per axis, of the straight line. */
  lemma PointNearLine(startLat: real, startLng: real, currentLat: real, currentLng: real,
                      points: nat, i: nat, now: real, rLat: Draw, rLng: Draw)
    requires i < points && points >= 2
    ensures var p := PointAt(startLat, startLng, currentLat, currentLng, points, i, now, rLat, rLng);
      && Abs(p.latitude - Lerp(startLat, currentLat, Ratio(i, points))) <= 0.001
      && Abs(p.longitude - Lerp(startLng, currentLng, Ratio(i, points))) <= 0.001
  {
  }

  /** Without jitter the trail starts at the start position and ends at the current one. */
  lemma EndpointsWithoutJitter(startLat: real, startLng: real, currentLat: real, currentLng: real,
                                                  points: nat, now: real)
    requires points >= 2
    ensures var first := PointAt(startLat, startLng, currentLat, currentLng, points, 0, now, 0.5, 0.5);
      first.latitude == startLat && first.longitude == startLng
    ensures var last := PointAt(startLat, startLng, currentLat, currentLng, points, points - 1, now, 0.5, 0.5);
      last.latitude == currentLat && last.longitude == currentLng
  {
  }

  /** Timestamp i is `now - 8h * (1 - ratio)`: the first is now - 8h, the last is now. */
  lemma TimestampSpan(startLat: real, startLng: real, currentLat: real, currentLng: real,
                      points: nat, i: nat, now: real, rLat: Draw, rLng: Draw)
    requires i < points && points >= 2
    ensures var t := PointAt(startLat, startLng, currentLat, currentLng, points, i, now, rLat, rLng).timestamp;
      && now - SpanMs <= t <= now
      && t == now - SpanMs * (1.0 - Ratio(i, points))
      && (i == 0 ==> t == now - SpanMs)
      && (i == points - 1 ==> t == now)
  {
  }

  /** Later points carry strictly later timestamps. */
  lemma RatioIncreasing(i: nat, j: nat, points: nat)
    requires i < j < points
    ensures Ratio(i, points) < Ratio(j, points)
  {
    var d := (points - 1) as real;
    assert Ratio(i, points) * d == i as real;
    assert Ratio(j, points) * d == j as real;
    var gap := Ratio(j, points) - Ratio(i, points);
    assert gap * d == (j - i) as real > 0.0;
  }

  /** `generateRouteHistory`: one point per index, pushed in order. Zero
      points give the empty trail; one point is excluded because its ratio is
      0/0. */
  method GenerateRouteHistory(startLat: real, startLng: real, currentLat: real, currentLng: real,
                              points: nat, now: real, latDraws: seq<Draw>, lngDraws: seq<Draw>)
    returns (route: seq<RoutePoint>)
    requires points != 1
    requires |latDraws| == points && |lngDraws| == points
    ensures |route| == points
    ensures forall i :: 0 <= i < points ==>
      route[i] == PointAt(startLat, startLng, currentLat, currentLng, points, i, now, latDraws[i], lngDraws[i])
    ensures forall i :: 0 <= i < points ==>
      && Abs(route[i].latitude - Lerp(startLat, currentLat, Ratio(i, points))) <= 0.001
      && Abs(route[i].longitude - Lerp(startLng, currentLng, Ratio(i, points))) <= 0.001
    ensures points > 0 ==> route[0].timestamp == now - SpanMs && route[points - 1].timestamp == now
    ensures forall i, j :: 0 <= i < j < points ==> route[i].timestamp < route[j].timestamp
  {
    route := [];
    var i := 0;
    while i < points
      invariant 0 <= i <= points
      invariant |route| == i
      invariant forall k :: 0 <= k < i ==>
        route[k] == PointAt(startLat, startLng, currentLat, currentLng, points, k, now, latDraws[k], lngDraws[k])
    {
      var ratio := Ratio(i, points);
      var lat := startLat + (currentLat - startLat) * ratio + (latDraws[i] as real - 0.5) * 0.002;
      var lng := startLng + (currentLng - startLng) * ratio + (lngDraws[i] as real - 0.5) * 0.002;
      var timeOffset := SpanMs * ratio;
      var timestamp := now - (SpanMs - timeOffset);
      route := route + [RoutePoint(lat, lng, timestamp)];
      i := i + 1;
    }
    forall i | 0 <= i < points
      ensures Abs(route[i].latitude - Lerp(startLat, currentLat, Ratio(i, points))) <= 0.001
      ensures Abs(route[i].longitude - Lerp(startLng, currentLng, Ratio(i, points))) <= 0.001
    {
      PointNearLine(startLat, startLng, currentLat, currentLng, points, i, now, latDraws[i], lngDraws[i]);
    }
    if points > 0 {
      TimestampSpan(startLat, startLng, currentLat, currentLng, points, 0, now, latDraws[0], lngDraws[0]);
      TimestampSpan(startLat, startLng, currentLat, currentLng, points, points - 1, now,
                    latDraws[points - 1], lngDraws[points - 1]);
    }
    forall i, j | 0 <= i < j < points
      ensures route[i].timestamp < route[j].timestamp
    {
      RatioIncreasing(i, j, points);
    }
  }

  /** `generateRouteHistory` called without `points`: a trail of twenty points. */
  method GenerateDefaultRouteHistory(startLat: real, startLng: real, currentLat: real, currentLng: real,
                                     now: real, latDraws: seq<Draw>, lngDraws: seq<Draw>)
    returns (route: seq<RoutePoint>)
    requires |latDraws| == DefaultPoints && |lngDraws| == DefaultPoints
    ensures |route| == 20
    ensures forall i :: 0 <= i < 20 ==>
      route[i] == PointAt(startLat, startLng, currentLat, currentLng, DefaultPoints, i, now, latDraws[i], lngDraws[i])
    ensures route[0].timestamp == now - SpanMs && route[19].timestamp == now
  {
    route := GenerateRouteHistory(startLat, startLng, currentLat, currentLng, DefaultPoints, now, latDraws, lngDraws);
  }
}
