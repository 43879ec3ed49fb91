/** The routes slice: building the traditional and the fill-sorted route, their
    metrics, and the start / progress / reset lifecycle of the routes. */
module Routes {
  import opened Common
  import opened Bins

  datatype RoutePoint = RoutePoint(location: Location, binId: Option<string>)

  datatype RouteMetrics = RouteMetrics(
    totalDistance: real,       // kilometres
    estimatedDuration: real,   // minutes
    binsCollected: int,
    fuelConsumption: real,     // litres
    co2Emissions: real)        // kilograms

  datatype RouteType = Traditional | Optimized

  datatype Route = Route(
    id: string,
    name: string,
    routeType: RouteType,
    points: seq<RoutePoint>,
    inProgress: bool,
    completed: bool,
    progress: real,
    metrics: RouteMetrics)

  const KmPerDegree: real := 111.0
  const AverageSpeedKmh: real := 30.0
  const MinutesPerBin: int := 2
  const FuelPerKm: real := 0.3
  const Co2PerLitre: real := 2.68
  /** Bins strictly above this level go on the optimized route. */
  const CollectionThreshold: real := 50.0

  const TraditionalId := "traditional"
  const OptimizedId := "optimized"

  // ---------------------------------------------------------------- metrics

  /** Math.sqrt is not modelled; every property below needs only that it is non-negative. */
  ghost predicate NonNegativeRoot(sqrt: real -> real) {
    forall x :: 0.0 <= x ==> 0.0 <= sqrt(x)
  }

  /** Flat Euclidean distance in degrees, times 111. */
  function SegmentLength(a: Location, b: Location, sqrt: real -> real): real {
    sqrt((b.lat - a.lat) * (b.lat - a.lat) + (b.lng - a.lng) * (b.lng - a.lng)) * KmPerDegree
  }

  /** Sum of the segment lengths between consecutive points. */
  function PathLength(points: seq<RoutePoint>, sqrt: real -> real): real
    decreases |points|
  {
    if |points| < 2 then 0.0
    else
      var n := |points|;
      PathLength(points[..n - 1], sqrt) + SegmentLength(points[n - 2].location, points[n - 1].location, sqrt)
  }

  lemma SegmentLengthNonNegative(a: Location, b: Location, sqrt: real -> real)
    requires NonNegativeRoot(sqrt)
    ensures SegmentLength(a, b, sqrt) >= 0.0
  {
    var dx := b.lat - a.lat;
    var dy := b.lng - a.lng;
    assert dx * dx >= 0.0 && dy * dy >= 0.0;
    assert sqrt(dx * dx + dy * dy) >= 0.0;
  }

  /** Distances are never negative, and a route of fewer than two points has length 0. */
  lemma {:induction false} PathLengthNonNegative(points: seq<RoutePoint>, sqrt: real -> real)
    requires NonNegativeRoot(sqrt)
    ensures PathLength(points, sqrt) >= 0.0
    ensures |points| < 2 ==> PathLength(points, sqrt) == 0.0
    decreases |points|
  {
    if |points| >= 2 {
      var n := |points|;
      PathLengthNonNegative(points[..n - 1], sqrt);
      SegmentLengthNonNegative(points[n - 2].location, points[n - 1].location, sqrt);
    }
  }

  /** `points.filter(p => p.binId).length`: points whose bin id is truthy. */
  function CountPickups(points: seq<RoutePoint>): (r: nat)
    ensures r <= |points|
  {
    if points == [] then 0
    else CountPickups(points[..|points| - 1]) + (if Truthy(points[|points| - 1].binId) then 1 else 0)
  }

  lemma {:induction false} CountPickupsAppend(a: seq<RoutePoint>, b: seq<RoutePoint>)
    ensures CountPickups(a + b) == CountPickups(a) + CountPickups(b)
    decreases |b|
  {
    if b == [] {
      assert a + b == a;
    } else {
      assert (a + b)[..|a + b| - 1] == a + b[..|b| - 1];
      CountPickupsAppend(a, b[..|b| - 1]);
    }
  }

  /** The metric formulas that calculateRouteMetrics applies. */
  predicate IsMetricsOf(m: RouteMetrics, points: seq<RoutePoint>, sqrt: real -> real) {
    && m.totalDistance == PathLength(points, sqrt)
    && m.binsCollected == CountPickups(points)
    && m.estimatedDuration == m.totalDistance / AverageSpeedKmh * 60.0 + (m.binsCollected * MinutesPerBin) as real
    && m.fuelConsumption == m.totalDistance * FuelPerKm
    && m.co2Emissions == m.fuelConsumption * Co2PerLitre
  }

  method CalculateRouteMetrics(points: seq<RoutePoint>, sqrt: real -> real) returns (m: RouteMetrics)
    ensures IsMetricsOf(m, points, sqrt)
  {
    var distance := 0.0;
    var binsCount := CountPickups(points);
    var i := 1;
    while i < |points|
      invariant 1 <= i
      invariant |points| > 0 ==> i <= |points|
      invariant distance == PathLength(points[..if |points| == 0 then 0 else i], sqrt)
    {
      assert points[..i + 1][..i] == points[..i];
      distance := distance + SegmentLength(points[i - 1].location, points[i].location, sqrt);
      i := i + 1;
    }
    assert points[..if |points| == 0 then 0 else i] == points;
    var drivingMinutes := distance / AverageSpeedKmh * 60.0;
    var collectionMinutes := (binsCount * MinutesPerBin) as real;
    var fuelConsumption := distance * FuelPerKm;
    var co2Emissions := fuelConsumption * Co2PerLitre;
    m := RouteMetrics(distance, drivingMinutes + collectionMinutes, binsCount, fuelConsumption, co2Emissions);
  }

  // ---------------------------------------------------------------- points

  function DepotPoint(depot: Location): RoutePoint {
    RoutePoint(depot, None)
  }

  function PickupPoint(bin: WasteBin): RoutePoint {
    RoutePoint(bin.location, Some(bin.id))
  }

  function PickupsOf(bins: seq<WasteBin>): (r: seq<RoutePoint>)
    ensures |r| == |bins| && forall i :: 0 <= i < |bins| ==> r[i] == PickupPoint(bins[i])
  {
    seq(|bins|, i requires 0 <= i < |bins| => PickupPoint(bins[i]))
  }

  /** Depot, a pickup for each stop in order, depot. */
  function Bracketed(depot: Location, stops: seq<WasteBin>): (r: seq<RoutePoint>)
    ensures |r| == |stops| + 2
    ensures r[0] == DepotPoint(depot) && r[|r| - 1] == DepotPoint(depot)
    ensures forall i :: 0 <= i < |stops| ==> r[i + 1] == PickupPoint(stops[i])
  {
    [DepotPoint(depot)] + PickupsOf(stops) + [DepotPoint(depot)]
  }

  /** Depot, every bin in input order, depot. */
  function TraditionalPoints(bins: seq<WasteBin>, depot: Location): (r: seq<RoutePoint>)
    ensures |r| == |bins| + 2
    ensures r[0] == DepotPoint(depot) && r[|r| - 1] == DepotPoint(depot)
    ensures forall i :: 0 <= i < |bins| ==> r[i + 1] == PickupPoint(bins[i])
  {
    Bracketed(depot, bins)
  }

  method BuildTraditionalPoints(bins: seq<WasteBin>, depot: Location) returns (points: seq<RoutePoint>)
    ensures points == TraditionalPoints(bins, depot)
  {
    points := [DepotPoint(depot)];
    for i := 0 to |bins|
      invariant points == [DepotPoint(depot)] + PickupsOf(bins[..i])
    {
      assert bins[..i + 1] == bins[..i] + [bins[i]];
      PickupsOfSnoc(bins[..i], bins[i]);
      points := points + [PickupPoint(bins[i])];
    }
    assert bins[..|bins|] == bins;
    points := points + [DepotPoint(depot)];
  }

  /** Every bin of the traditional route is counted: ids are non-empty strings in practice. */
  lemma TraditionalCollectsEveryBin(bins: seq<WasteBin>, depot: Location)
    requires forall i :: 0 <= i < |bins| ==> bins[i].id != ""
    ensures CountPickups(TraditionalPoints(bins, depot)) == |bins|
  {
    PickupCount(depot, bins);
  }

  lemma {:induction false} PickupsOfCount(bins: seq<WasteBin>)
    requires forall i :: 0 <= i < |bins| ==> bins[i].id != ""
    ensures CountPickups(PickupsOf(bins)) == |bins|
    decreases |bins|
  {
    if bins != [] {
      var n := |bins|;
      PickupsOfCount(bins[..n - 1]);
      assert PickupsOf(bins)[..n - 1] == PickupsOf(bins[..n - 1]);
    }
  }

  lemma PickupCount(depot: Location, stops: seq<WasteBin>)
    requires forall i :: 0 <= i < |stops| ==> stops[i].id != ""
    ensures CountPickups(Bracketed(depot, stops)) == |stops|
  {
    PickupsOfCount(stops);
    CountPickupsAppend([DepotPoint(depot)], PickupsOf(stops));
    CountPickupsAppend([DepotPoint(depot)] + PickupsOf(stops), [DepotPoint(depot)]);
    assert CountPickups([DepotPoint(depot)]) == 0 by {
      assert [DepotPoint(depot)][..0] == [];
    }
  }

  // ---------------------------------------------------------------- fill-level sort

  /** Non-increasing fill level, as `sort((a, b) => b.fillLevel - a.fillLevel)` leaves it. */
  predicate FillNonIncreasing(s: seq<WasteBin>) {
    forall i, j :: 0 <= i < j < |s| ==> s[i].fillLevel >= s[j].fillLevel
  }

  /** Inserts `b` before the first element that is not fuller than it, so that among equal
      fill levels the earlier bin stays first (Array.prototype.sort is stable). */
  function InsertByFill(b: WasteBin, s: seq<WasteBin>): (r: seq<WasteBin>)
    ensures multiset(r) == multiset(s) + multiset{b}
    ensures |r| == |s| + 1
  {
    if s == [] || b.fillLevel >= s[0].fillLevel then [b] + s
    else
      assert s == [s[0]] + s[1..];
      [s[0]] + InsertByFill(b, s[1..])
  }

  function SortByFillDesc(s: seq<WasteBin>): (r: seq<WasteBin>)
    ensures multiset(r) == multiset(s)
  {
    if s == [] then []
    else
      assert s == [s[0]] + s[1..];
      InsertByFill(s[0], SortByFillDesc(s[1..]))
  }

  lemma {:induction false} InsertByFillSorted(b: WasteBin, s: seq<WasteBin>)
    requires FillNonIncreasing(s)
    ensures FillNonIncreasing(InsertByFill(b, s))
    decreases |s|
  {
    if s == [] || b.fillLevel >= s[0].fillLevel {
      var r := [b] + s;
      forall i, j | 0 <= i < j < |r| ensures r[i].fillLevel >= r[j].fillLevel {
        if i > 0 {
          assert r[i] == s[i - 1] && r[j] == s[j - 1];
        } else {
          assert r[j] == s[j - 1];
          assert s[0].fillLevel >= s[j - 1].fillLevel || j == 1;
        }
      }
    } else {
      var tail := InsertByFill(b, s[1..]);
      InsertByFillSorted(b, s[1..]);
      var r := [s[0]] + tail;
      forall k | 0 <= k < |tail| ensures s[0].fillLevel >= tail[k].fillLevel {
        assert tail[k] in multiset(s[1..]) + multiset{b};
        if tail[k] in multiset(s[1..]) {
          var m :| 0 <= m < |s[1..]| && s[1..][m] == tail[k];
          assert s[m + 1] == tail[k];
        }
      }
      forall i, j | 0 <= i < j < |r| ensures r[i].fillLevel >= r[j].fillLevel {
        if i > 0 {
          assert r[i] == tail[i - 1] && r[j] == tail[j - 1];
        } else {
          assert r[j] == tail[j - 1];
        }
      }
    }
  }

  lemma {:induction false} SortByFillDescSorted(s: seq<WasteBin>)
    ensures FillNonIncreasing(SortByFillDesc(s))
    decreases |s|
  {
    if s != [] {
      SortByFillDescSorted(s[1..]);
      InsertByFillSorted(s[0], SortByFillDesc(s[1..]));
    }
  }

  // ---------------------------------------------------------------- need-of-collection filter

  /** The bins with `fillLevel > 50`, in the order given. */
  function NeedsCollection(s: seq<WasteBin>): (r: seq<WasteBin>)
    ensures |r| <= |s|
  {
    if s == [] then []
    else
      var last := s[|s| - 1];
      NeedsCollection(s[..|s| - 1]) + (if last.fillLevel > CollectionThreshold then [last] else [])
  }

  lemma {:induction false} NeedsCollectionMultiset(s: seq<WasteBin>)
    ensures forall b :: multiset(NeedsCollection(s))[b] ==
                        (if b.fillLevel > CollectionThreshold then multiset(s)[b] else 0)
    decreases |s|
  {
    if s != [] {
      var init := s[..|s| - 1];
      NeedsCollectionMultiset(init);
      assert s == init + [s[|s| - 1]];
    }
  }

  lemma NeedsCollectionMembers(s: seq<WasteBin>)
    ensures forall b :: b in NeedsCollection(s) <==> b in s && b.fillLevel > CollectionThreshold
  {
    NeedsCollectionMultiset(s);
    forall b ensures b in NeedsCollection(s) <==> b in s && b.fillLevel > CollectionThreshold {
      assert b in NeedsCollection(s) <==> b in multiset(NeedsCollection(s));
      assert b in s <==> b in multiset(s);
    }
  }

  lemma {:induction false} NeedsCollectionKeepsOrder(s: seq<WasteBin>)
    requires FillNonIncreasing(s)
    ensures FillNonIncreasing(NeedsCollection(s))
    decreases |s|
  {
    if s != [] {
      var init := s[..|s| - 1];
      var last := s[|s| - 1];
      assert FillNonIncreasing(init);
      NeedsCollectionKeepsOrder(init);
      if last.fillLevel > CollectionThreshold {
        var f := NeedsCollection(init);
        NeedsCollectionMembers(init);
        var r := f + [last];
        forall i, j | 0 <= i < j < |r| ensures r[i].fillLevel >= r[j].fillLevel {
          if j == |r| - 1 {
            assert r[i] in init;
            var m :| 0 <= m < |init| && init[m] == r[i];
            assert s[m] == r[i];
          } else {
            assert r[i] == f[i] && r[j] == f[j];
          }
        }
      }
    }
  }

  // ---------------------------------------------------------------- optimized route

  /** The stops of the optimized route: the bins sorted by descending fill level,
      keeping those above 50 (sorting first and filtering second, as the reducer does). */
  function OptimizedStops(bins: seq<WasteBin>): seq<WasteBin> {
    NeedsCollection(SortByFillDesc(bins))
  }

  /** The optimized stops are exactly the bins above 50, each as often as in the input,
      in non-increasing fill order. */
  lemma OptimizedStopsSpec(bins: seq<WasteBin>)
    ensures multiset(OptimizedStops(bins)) == multiset(NeedsCollection(bins))
    ensures forall b :: b in OptimizedStops(bins) <==> b in bins && b.fillLevel > CollectionThreshold
    ensures FillNonIncreasing(OptimizedStops(bins))
  {
    var sorted := SortByFillDesc(bins);
    NeedsCollectionMultiset(sorted);
    NeedsCollectionMultiset(bins);
    assert multiset(OptimizedStops(bins)) == multiset(NeedsCollection(bins)) by {
      forall b ensures multiset(OptimizedStops(bins))[b] == multiset(NeedsCollection(bins))[b] {
      }
    }
    NeedsCollectionMembers(sorted);
    forall b ensures b in sorted <==> b in bins {
      assert b in sorted <==> b in multiset(sorted);
      assert b in bins <==> b in multiset(bins);
    }
    SortByFillDescSorted(bins);
    NeedsCollectionKeepsOrder(sorted);
  }

  function OptimizedPoints(bins: seq<WasteBin>, depot: Location): seq<RoutePoint> {
    Bracketed(depot, OptimizedStops(bins))
  }

  method BuildOptimizedPoints(bins: seq<WasteBin>, depot: Location) returns (points: seq<RoutePoint>)
    ensures points == OptimizedPoints(bins, depot)
  {
    var sortedBins := SortByFillDesc(bins);
    points := [DepotPoint(depot)];
    ghost var stops: seq<WasteBin> := [];
    for i := 0 to |sortedBins|
      invariant stops == NeedsCollection(sortedBins[..i])
      invariant points == [DepotPoint(depot)] + PickupsOf(stops)
    {
      var bin := sortedBins[i];
      assert sortedBins[..i + 1][..i] == sortedBins[..i];
      if bin.fillLevel > CollectionThreshold {
        PickupsOfSnoc(stops, bin);
        stops := stops + [bin];
        points := points + [PickupPoint(bin)];
      }
    }
    assert sortedBins[..|sortedBins|] == sortedBins;
    points := points + [DepotPoint(depot)];
  }

  lemma PickupsOfSnoc(s: seq<WasteBin>, b: WasteBin)
    ensures PickupsOf(s + [b]) == PickupsOf(s) + [PickupPoint(b)]
  {
  }

  /** Every pickup of the optimized route is also a point of the traditional route. */
  lemma OptimizedPickupsAreTraditional(bins: seq<WasteBin>, depot: Location)
    ensures forall i :: 1 <= i < |OptimizedPoints(bins, depot)| - 1 ==>
      OptimizedPoints(bins, depot)[i] in TraditionalPoints(bins, depot)
  {
    var stops := OptimizedStops(bins);
    var r := OptimizedPoints(bins, depot);
    var t := TraditionalPoints(bins, depot);
    OptimizedStopsSpec(bins);
    forall i | 1 <= i < |r| - 1 ensures r[i] in t {
      var b := stops[i - 1];
      assert r[i] == PickupPoint(b);
      assert b in bins;
      var m :| 0 <= m < |bins| && bins[m] == b;
      assert t[m + 1] == PickupPoint(b);
    }
  }

  // ---------------------------------------------------------------- lifecycle

  function FindRoute(routes: seq<Route>, id: string): (r: Option<nat>)
    ensures r.Some? ==> r.value < |routes| && routes[r.value].id == id
    ensures r.Some? ==> forall j :: 0 <= j < r.value ==> routes[j].id != id
    ensures r.None? <==> forall j :: 0 <= j < |routes| ==> routes[j].id != id
  {
    FirstIndex(routes, (r: Route) => r.id == id)
  }

  /** A freshly generated route: not started, not completed, no progress. */
  function NewRoute(id: string, name: string, routeType: RouteType, points: seq<RoutePoint>, metrics: RouteMetrics): Route {
    Route(id, name, routeType, points, false, false, 0.0, metrics)
  }

  /** No route is completed while still in progress. */
  predicate LifecycleConsistent(routes: seq<Route>) {
    forall i :: 0 <= i < |routes| ==> routes[i].completed ==> !routes[i].inProgress
  }

  /** The first route with the id is (re)started; the others are untouched. */
  function StartedRoutes(routes: seq<Route>, id: string): (r: seq<Route>)
    ensures |r| == |routes|
    ensures FindRoute(routes, id).None? ==> r == routes
    ensures FindRoute(routes, id).Some? ==>
      var k := FindRoute(routes, id).value;
      r[k] == routes[k].(inProgress := true, completed := false, progress := 0.0)
      && forall j :: 0 <= j < |routes| && j != k ==> r[j] == routes[j]
  {
    match FindRoute(routes, id)
    case None => routes
    case Some(k) => routes[k := routes[k].(inProgress := true, completed := false, progress := 0.0)]
  }

  /** The first route with the id stores the progress; from 1 on it is completed. */
  function ProgressedRoutes(routes: seq<Route>, id: string, progress: real): (r: seq<Route>)
    ensures |r| == |routes|
    ensures FindRoute(routes, id).None? ==> r == routes
    ensures FindRoute(routes, id).Some? ==>
      var k := FindRoute(routes, id).value;
      && r[k].progress == progress
      && (progress >= 1.0 ==> r[k] == routes[k].(progress := progress, inProgress := false, completed := true))
      && (progress < 1.0 ==> r[k] == routes[k].(progress := progress))
      && forall j :: 0 <= j < |routes| && j != k ==> r[j] == routes[j]
  {
    match FindRoute(routes, id)
    case None => routes
    case Some(k) =>
      var route := routes[k].(progress := progress);
      routes[k := if progress >= 1.0 then route.(inProgress := false, completed := true) else route]
  }

  lemma StartKeepsLifecycle(routes: seq<Route>, id: string)
    requires LifecycleConsistent(routes)
    ensures LifecycleConsistent(StartedRoutes(routes, id))
  {
  }

  lemma ProgressKeepsLifecycle(routes: seq<Route>, id: string, progress: real)
    requires LifecycleConsistent(routes)
    ensures LifecycleConsistent(ProgressedRoutes(routes, id, progress))
  {
  }

  /** Nothing stops a second route from starting while the first is in progress. */
  lemma SecondRouteCanStart(routes: seq<Route>)
    requires |routes| == 2 && routes[0].id == TraditionalId && routes[1].id == OptimizedId
    ensures var r := StartedRoutes(StartedRoutes(routes, TraditionalId), OptimizedId);
      r[0].inProgress && r[1].inProgress
  {
    assert TraditionalId[0] != OptimizedId[0];
    var once := StartedRoutes(routes, TraditionalId);
    assert FindRoute(routes, TraditionalId) == Some(0);
    assert once[1] == routes[1];
    assert FindRoute(once, OptimizedId) == Some(1);
  }

  // ---------------------------------------------------------------- the slice

  class RoutesStore {
    var routes: seq<Route>
    var activeRouteId: Option<string>
    var traditionalMetrics: Option<RouteMetrics>
    var optimizedMetrics: Option<RouteMetrics>

    constructor ()
      ensures routes == [] && activeRouteId == None
      ensures traditionalMetrics == None && optimizedMetrics == None
    {
      routes := [];
      activeRouteId := None;
      traditionalMetrics := None;
      optimizedMetrics := None;
    }

    /** Replaces the routes by a fresh traditional and optimized route; the active id
        is left as it was. */
    method GenerateRoutes(bins: seq<WasteBin>, depot: Location, sqrt: real -> real)
      modifies this
      ensures |routes| == 2
      ensures routes[0] == NewRoute(TraditionalId, "Traditional Collection Route", Traditional,
                                    TraditionalPoints(bins, depot), routes[0].metrics)
      ensures routes[1] == NewRoute(OptimizedId, "Smart Optimized Collection Route", Optimized,
                                    OptimizedPoints(bins, depot), routes[1].metrics)
      ensures IsMetricsOf(routes[0].metrics, routes[0].points, sqrt)
      ensures IsMetricsOf(routes[1].metrics, routes[1].points, sqrt)
      ensures traditionalMetrics == Some(routes[0].metrics) && optimizedMetrics == Some(routes[1].metrics)
      ensures activeRouteId == old(activeRouteId)
      ensures LifecycleConsistent(routes)
    {
      var traditionalPoints := BuildTraditionalPoints(bins, depot);
      var optimizedPoints := BuildOptimizedPoints(bins, depot);
      var tm := CalculateRouteMetrics(traditionalPoints, sqrt);
      var om := CalculateRouteMetrics(optimizedPoints, sqrt);
      traditionalMetrics := Some(tm);
      optimizedMetrics := Some(om);
      routes := [
        NewRoute(TraditionalId, "Traditional Collection Route", Traditional, traditionalPoints, tm),
        NewRoute(OptimizedId, "Smart Optimized Collection Route", Optimized, optimizedPoints, om)
      ];
    }

    /** Always makes `routeId` the active id, known or not, and whatever was active. */
    method StartRoute(routeId: string)
      modifies this`routes, this`activeRouteId
      ensures activeRouteId == Some(routeId)
      ensures routes == StartedRoutes(old(routes), routeId)
    {
      activeRouteId := Some(routeId);
      var k := FindRoute(routes, routeId);
      if k.Some? {
        var i := k.value;
        routes := routes[i := routes[i].(inProgress := true, completed := false, progress := 0.0)];
      }
    }

    method UpdateRouteProgress(routeId: string, progress: real)
      modifies this`routes, this`activeRouteId
      ensures routes == ProgressedRoutes(old(routes), routeId, progress)
      ensures activeRouteId ==
        if FindRoute(old(routes), routeId).Some? && progress >= 1.0 then None else old(activeRouteId)
    {
      var k := FindRoute(routes, routeId);
      if k.Some? {
        var i := k.value;
        routes := routes[i := routes[i].(progress := progress)];
        if progress >= 1.0 {
          routes := routes[i := routes[i].(inProgress := false, completed := true)];
          activeRouteId := None;
        }
      }
    }

    /** The placeholder reducer: the routes slice ignores its own emptyBin action. */
    method EmptyBin(binId: string)
      ensures unchanged(this)
    {
    }

    method ResetRoutes()
      modifies this
      ensures routes == [] && activeRouteId == None
      ensures traditionalMetrics == None && optimizedMetrics == None
    {
      routes := [];
      activeRouteId := None;
      traditionalMetrics := None;
      optimizedMetrics := None;
    }
  }
}
