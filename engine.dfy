/** One tick of the simulation engine, with the timer removed: given the store
    snapshot the tick reads and the wall-clock time `now`, the actions it dispatches,
    in order, and the new values of the engine's three refs. */
module Engine {
  import opened Common
  import opened Simulation
  import opened Bins
  import opened Routes
  import opened Notifications

  /** How often, in real milliseconds, the fill-level check runs. */
  const BinCheckInterval: int := 5000
  /** How often, in simulated milliseconds, the sensors report (15 minutes). */
  const SensorUpdateInterval: int := 15 * 60 * 1000
  /** Route progress per tick at speed 1. */
  const ProgressPerTick: real := 0.02
  /** A waypoint is collected once the vehicle is past this fraction of the leg before it. */
  const CollectionFraction: real := 0.8

  /** Redux Toolkit gives every action of a slice the type `<slice name>/<reducer name>`. */
  function ActionType(sliceName: string, reducer: string): string {
    sliceName + "/" + reducer
  }

  datatype Action =
    | UpdateSimulationTime(time: int)
    | SetLastUpdateTime(time: int)
    | UpdateBinFillLevels(time: int, scenario: Scenario, elapsed: int)
    | UpdateBinSensorData
    | UpdateRouteProgress(routeId: string, progress: real)
    | EmptyBin(actionType: string, binId: string)
    | AddNotification(payload: NotificationPayload)

  /** What the engine reads from the store before a tick. */
  datatype EngineInputs = EngineInputs(
    isRunning: bool,
    speed: int,
    scenario: Scenario,
    currentTime: int,
    lastUpdateTime: int,
    bins: seq<WasteBin>,
    routes: seq<Route>,
    activeRouteId: Option<string>)

  /** The engine's refs: last bin check, last sensor update (both wall-clock) and route progress. */
  datatype EngineRefs = EngineRefs(lastBinCheck: int, lastSensorUpdate: int, routeProgress: real)

  datatype TickOutcome = TickOutcome(effects: seq<Action>, refs: EngineRefs)

  // ---------------------------------------------------------------- collection action

  /** The collection action as the engine builds it: its emptyBin comes from the routes slice. */
  function CollectionActionAsWritten(binId: string): Action {
    EmptyBin(ActionType("routes", "emptyBin"), binId)
  }

  /** The bins slice's emptyBin, which the routes slice's placeholder says it defers to. */
  function CollectionAction(binId: string): Action {
    EmptyBin(ActionType("bins", "emptyBin"), binId)
  }

  /** The bins slice answers only actions of its own type; any other leaves its state alone. */
  function BinsOnEmptyAction(bins: seq<WasteBin>, a: Action, now: int): seq<WasteBin>
    requires a.EmptyBin?
  {
    if a.actionType == ActionType("bins", "emptyBin") then EmptiedBins(bins, a.binId, now) else bins
  }

  /** As written, a collection never empties any bin. */
  lemma CollectionAsWrittenEmptiesNothing(bins: seq<WasteBin>, binId: string, now: int)
    ensures BinsOnEmptyAction(bins, CollectionActionAsWritten(binId), now) == bins
  {
    assert ActionType("routes", "emptyBin")[0] != ActionType("bins", "emptyBin")[0];
  }

  /** A concrete case: the bin at 95% that the vehicle reaches stays at 95%. */
  lemma CollectionAsWrittenLeavesBinFull(bin: WasteBin, now: int)
    requires bin.fillLevel == 95.0
    ensures BinsOnEmptyAction([bin], CollectionActionAsWritten(bin.id), now)[0].fillLevel == 95.0
  {
    CollectionAsWrittenEmptiesNothing([bin], bin.id, now);
  }

  /** Corrected, the collection empties the first bin with that id and nothing else. */
  lemma CollectionEmptiesBin(bins: seq<WasteBin>, binId: string, now: int)
    requires FindBin(bins, binId).Some?
    ensures var r := BinsOnEmptyAction(bins, CollectionAction(binId), now);
      var k := FindBin(bins, binId).value;
      && r[k].fillLevel == 0.0 && r[k].lastCollectionTime == now
      && forall j :: 0 <= j < |bins| && j != k ==> r[j] == bins[j]
  {
  }

  // ---------------------------------------------------------------- threshold checks

  /** At most one fill alert per bin: high from 90, medium in [75, 80), none otherwise. */
  function CriticalFillAlert(bin: WasteBin): (r: Option<NotificationPayload>)
    ensures r.Some? <==> bin.fillLevel >= 90.0 || (75.0 <= bin.fillLevel && bin.fillLevel < 80.0)
    ensures r.Some? ==> r.value.binId == Some(bin.id)
    ensures r.Some? ==> (r.value.priority == High <==> bin.fillLevel >= 90.0)
    ensures r.Some? ==> (r.value.priority == Medium <==> bin.fillLevel < 90.0)
    ensures r.Some? ==> r.value.message.CriticalFillMessage? || r.value.message.HighFillMessage?
  {
    if bin.fillLevel >= 90.0 then
      Some(NotificationPayload("Critical Fill Level", CriticalFillMessage(bin.name, bin.fillLevel),
                               Alert, Some(bin.id), High))
    else if bin.fillLevel >= 75.0 && bin.fillLevel < 80.0 then
      Some(NotificationPayload("High Fill Level", HighFillMessage(bin.name, bin.fillLevel),
                               Warning, Some(bin.id), Medium))
    else None
  }

  /** Is this action a threshold alert (fill, battery or connectivity)? */
  predicate IsThresholdAlert(a: Action) {
    a.AddNotification?
    && (a.payload.message.CriticalFillMessage? || a.payload.message.HighFillMessage?
        || a.payload.message.LowBatteryMessage? || a.payload.message.ConnectivityMessage?)
  }

  /** The notifications checkCriticalBins dispatches, bin by bin. */
  function CriticalBinActions(bins: seq<WasteBin>): (r: seq<Action>)
    ensures |r| <= |bins|
  {
    if bins == [] then []
    else
      var last := bins[|bins| - 1];
      CriticalBinActions(bins[..|bins| - 1]) + Dispatched(CriticalFillAlert(last))
  }

  lemma {:induction false} CriticalBinActionsAreAlerts(bins: seq<WasteBin>)
    ensures forall a :: a in CriticalBinActions(bins) ==> IsThresholdAlert(a)
  {
    if bins != [] {
      CriticalBinActionsAreAlerts(bins[..|bins| - 1]);
    }
  }

  method CheckCriticalBins(bins: seq<WasteBin>) returns (effects: seq<Action>)
    ensures effects == CriticalBinActions(bins)
  {
    effects := [];
    for i := 0 to |bins|
      invariant effects == CriticalBinActions(bins[..i])
    {
      assert bins[..i + 1][..i] == bins[..i];
      var alert := CriticalFillAlert(bins[i]);
      if alert.Some? {
        effects := effects + [AddNotification(alert.value)];
      }
    }
    assert bins[..|bins|] == bins;
  }

  /** Bins between 80% and 90% raise no fill alert at all. */
  lemma NoFillAlertBetween80And90(bins: seq<WasteBin>)
    requires forall i :: 0 <= i < |bins| ==> 80.0 <= bins[i].fillLevel < 90.0
    ensures CriticalBinActions(bins) == []
  {
    if bins != [] {
      NoFillAlertBetween80And90(bins[..|bins| - 1]);
    }
  }

  function ConnectivityName(c: Connectivity): string {
    match c
    case Online => "online"
    case Offline => "offline"
    case Intermittent => "intermittent"
  }

  /** The low-battery test of checkSensorIssues: below 20%, a low-priority warning. */
  function LowBatteryAlert(bin: WasteBin): (r: Option<NotificationPayload>)
    ensures r.Some? <==> bin.sensorData.batteryLevel < 20.0
    ensures r.Some? ==> r.value.binId == Some(bin.id) && r.value.priority == Low
                        && r.value.message.LowBatteryMessage?
  {
    if bin.sensorData.batteryLevel < 20.0 then
      Some(NotificationPayload("Low Battery", LowBatteryMessage(bin.name, bin.sensorData.batteryLevel),
                               Warning, Some(bin.id), Low))
    else None
  }

  /** The connectivity test of checkSensorIssues: any state but online, a medium-priority warning. */
  function ConnectivityAlert(bin: WasteBin): (r: Option<NotificationPayload>)
    ensures r.Some? <==> bin.sensorData.connectivity != Online
    ensures r.Some? ==> r.value.binId == Some(bin.id) && r.value.priority == Medium
                        && r.value.message == ConnectivityMessage(bin.name, ConnectivityName(bin.sensorData.connectivity))
  {
    if bin.sensorData.connectivity != Online then
      Some(NotificationPayload("Connectivity Issue",
                               ConnectivityMessage(bin.name, ConnectivityName(bin.sensorData.connectivity)),
                               Warning, Some(bin.id), Medium))
    else None
  }

  /** The dispatch of an optional notification. */
  function Dispatched(alert: Option<NotificationPayload>): (r: seq<Action>)
    ensures |r| == (if alert.Some? then 1 else 0)
  {
    match alert
    case None => []
    case Some(p) => [AddNotification(p)]
  }

  /** The notifications checkSensorIssues dispatches: per bin, the battery test and then,
      independently, the connectivity test. */
  function SensorIssueActions(bins: seq<WasteBin>): (r: seq<Action>)
    ensures |r| <= 2 * |bins|
  {
    if bins == [] then []
    else
      var last := bins[|bins| - 1];
      SensorIssueActions(bins[..|bins| - 1]) + Dispatched(LowBatteryAlert(last)) + Dispatched(ConnectivityAlert(last))
  }

  lemma {:induction false} SensorIssueActionsAreAlerts(bins: seq<WasteBin>)
    ensures forall a :: a in SensorIssueActions(bins) ==> IsThresholdAlert(a)
  {
    if bins != [] {
      SensorIssueActionsAreAlerts(bins[..|bins| - 1]);
    }
  }

  method CheckSensorIssues(bins: seq<WasteBin>) returns (effects: seq<Action>)
    ensures effects == SensorIssueActions(bins)
  {
    effects := [];
    for i := 0 to |bins|
      invariant effects == SensorIssueActions(bins[..i])
    {
      assert bins[..i + 1][..i] == bins[..i];
      var bin := bins[i];
      var battery := LowBatteryAlert(bin);
      if battery.Some? {
        effects := effects + [AddNotification(battery.value)];
      }
      var connectivity := ConnectivityAlert(bin);
      if connectivity.Some? {
        effects := effects + [AddNotification(connectivity.value)];
      }
    }
    assert bins[..|bins|] == bins;
  }

  // ---------------------------------------------------------------- route progress

  /** `Math.min(1, prev + 0.02 * speed)`. */
  function NextProgress(prev: real, speed: int): (p: real)
    requires 0.0 <= prev <= 1.0 && speed >= 0
    ensures prev <= p <= 1.0
    ensures p < 1.0 ==> p == prev + ProgressPerTick * speed as real
    ensures p == 1.0 <==> prev + ProgressPerTick * speed as real >= 1.0
  {
    MinReal(1.0, prev + ProgressPerTick * speed as real)
  }

  /** Where progress p puts the vehicle on a route of n points: the index of the leg's
      first point and the fraction of that leg covered. */
  datatype Waypoint = Waypoint(index: int, fraction: real)

  function WaypointAt(n: int, p: real): (w: Waypoint)
    ensures w.index as real <= p * (n - 1) as real < w.index as real + 1.0
    ensures w.fraction == p * (n - 1) as real - w.index as real
    ensures 0.0 <= w.fraction < 1.0
  {
    var exact := p * (n - 1) as real;
    Waypoint(exact.Floor, exact - exact.Floor as real)
  }

  /** The waypoint whose bin is emptied at progress p, if any: the end point of the current
      leg, when more than 0.8 of the leg is covered and that point has a truthy bin id. */
  function CollectionIndex(points: seq<RoutePoint>, p: real): (r: Option<nat>)
    requires 0.0 <= p <= 1.0
    ensures r.Some? ==> 1 <= r.value < |points| && Truthy(points[r.value].binId)
  {
    var w := WaypointAt(|points|, p);
    var next := w.index + 1;
    if w.fraction > CollectionFraction && next < |points| then
      assert next >= 1 by {
        assert |points| >= 1;
        ProductNonNegative(p, (|points| - 1) as real);
      }
      if Truthy(points[next].binId) then Some(next) else None
    else None
  }

  lemma ProductNonNegative(x: real, y: real)
    requires 0.0 <= x && 0.0 <= y
    ensures 0.0 <= x * y
  {
  }

  /** The k-th waypoint is collected exactly while p * (n - 1) lies strictly between
      k - 0.2 and k, that is in the last fifth of the leg that ends at it. */
  lemma CollectionIndexIff(points: seq<RoutePoint>, p: real, k: nat)
    requires 0.0 <= p <= 1.0
    ensures CollectionIndex(points, p) == Some(k) <==>
      && 1 <= k < |points| && Truthy(points[k].binId)
      && (k - 1) as real + CollectionFraction < p * (|points| - 1) as real < k as real
  {
    var x := p * (|points| - 1) as real;
    var w := WaypointAt(|points|, p);
    if 1 <= k < |points| && (k - 1) as real + CollectionFraction < x < k as real {
      assert w.index == k - 1;
    }
  }

  /** Nothing is collected on the tick that completes the route. */
  lemma NoCollectionAtCompletion(points: seq<RoutePoint>)
    ensures CollectionIndex(points, 1.0) == None
  {
    var w := WaypointAt(|points|, 1.0);
    assert w.index == |points| - 1;
  }

  /** Nothing records an emptied waypoint: on a five-point route at speed 1, the two
      consecutive ticks at progress 0.22 and 0.24 both collect waypoint 1. */
  lemma CollectionRepeats(depot: Location, a: WasteBin, b: WasteBin, c: WasteBin)
    requires a.id != ""
    ensures var points := [DepotPoint(depot), PickupPoint(a), PickupPoint(b), PickupPoint(c), DepotPoint(depot)];
      && CollectionIndex(points, 0.22) == Some(1)
      && NextProgress(0.22, 1) == 0.24
      && CollectionIndex(points, 0.24) == Some(1)
  {
    var points := [DepotPoint(depot), PickupPoint(a), PickupPoint(b), PickupPoint(c), DepotPoint(depot)];
    CollectionIndexIff(points, 0.22, 1);
    CollectionIndexIff(points, 0.24, 1);
  }

  // ---------------------------------------------------------------- one tick

  function BinCollectedNotice(point: RoutePoint): NotificationPayload {
    NotificationPayload("Bin Collected", BinEmptiedMessage(point.location.lat, point.location.lng),
                        Success, point.binId, Low)
  }

  function RouteCompletedNotice(route: Route): NotificationPayload {
    NotificationPayload("Route Completed", RouteCompletedMessage(route.name), Success, None, Medium)
  }

  predicate IsRouteCompletedNotice(a: Action) {
    a.AddNotification? && a.payload.message.RouteCompletedMessage?
  }

  /** The id of the route the engine drives on this tick, if any: the active id is truthy,
      names a route, and that route is not completed. */
  function DrivenRoute(inp: EngineInputs): (r: Option<nat>)
    ensures r.Some? ==> r.value < |inp.routes| && Truthy(inp.activeRouteId)
                        && r == FindRoute(inp.routes, inp.activeRouteId.value)
                        && inp.routes[r.value].id == inp.activeRouteId.value
                        && !inp.routes[r.value].completed
    ensures (Truthy(inp.activeRouteId) && FindRoute(inp.routes, inp.activeRouteId.value).Some?
             && !inp.routes[FindRoute(inp.routes, inp.activeRouteId.value).value].completed) ==> r.Some?
  {
    if !Truthy(inp.activeRouteId) then None
    else match FindRoute(inp.routes, inp.activeRouteId.value)
      case None => None
      case Some(k) => if inp.routes[k].completed then None else Some(k)
  }

  datatype RouteStep = RouteStep(effects: seq<Action>, progress: real)

  /** The route part of a tick: progress, collection and completion. */
  function RouteTick(inp: EngineInputs, prev: real): (r: RouteStep)
    requires 0.0 <= prev <= 1.0 && inp.speed >= 0
    ensures 0.0 <= r.progress <= 1.0
  {
    match DrivenRoute(inp)
    case None => RouteStep([], prev)
    case Some(k) =>
      var route := inp.routes[k];
      var p := NextProgress(prev, inp.speed);
      var collect := match CollectionIndex(route.points, p)
        case None => []
        case Some(j) =>
          [CollectionActionAsWritten(route.points[j].binId.value), AddNotification(BinCollectedNotice(route.points[j]))];
      var done := if p >= 1.0 then [AddNotification(RouteCompletedNotice(route))] else [];
      RouteStep([UpdateRouteProgress(inp.activeRouteId.value, p)] + collect + done, if p >= 1.0 then 0.0 else p)
  }

  /** The route part of the interval body, step by step. */
  method DriveRoute(inp: EngineInputs, prev: real) returns (step: RouteStep)
    requires 0.0 <= prev <= 1.0 && inp.speed >= 0
    ensures step == RouteTick(inp, prev)
  {
    var effects: seq<Action> := [];
    var progress := prev;
    var driven := DrivenRoute(inp);
    if driven.Some? {
      var routeId := inp.activeRouteId.value;
      var activeRoute := inp.routes[driven.value];
      var progressIncrease := ProgressPerTick * inp.speed as real;
      var newProgress := MinReal(1.0, progress + progressIncrease);
      effects := effects + [UpdateRouteProgress(routeId, newProgress)];
      var target := CollectionIndex(activeRoute.points, newProgress);
      if target.Some? {
        var nextPoint := activeRoute.points[target.value];
        effects := effects + [CollectionActionAsWritten(nextPoint.binId.value), AddNotification(BinCollectedNotice(nextPoint))];
      }
      progress := newProgress;
      if newProgress >= 1.0 {
        progress := 0.0;
        effects := effects + [AddNotification(RouteCompletedNotice(activeRoute))];
      }
    }
    step := RouteStep(effects, progress);
  }

  /** The clock part of a tick: time advance, last-update stamp and fill update. */
  function ClockEffects(inp: EngineInputs, now: int): seq<Action> {
    var simulatedElapsed := (now - inp.lastUpdateTime) * inp.speed;
    var newTime := inp.currentTime + simulatedElapsed;
    [UpdateSimulationTime(newTime), SetLastUpdateTime(now), UpdateBinFillLevels(newTime, inp.scenario, simulatedElapsed)]
  }

  predicate BinCheckDue(refs: EngineRefs, now: int) {
    now - refs.lastBinCheck > BinCheckInterval
  }

  predicate SensorUpdateDue(refs: EngineRefs, speed: int, now: int) {
    (now - refs.lastSensorUpdate) * speed > SensorUpdateInterval
  }

  /** The fill alerts of a tick, when the check is due. */
  function AlertEffects(refs: EngineRefs, inp: EngineInputs, now: int): seq<Action> {
    if BinCheckDue(refs, now) then CriticalBinActions(inp.bins) else []
  }

  /** The sensor update and the sensor alerts of a tick, when the update is due. */
  function SensorEffects(refs: EngineRefs, inp: EngineInputs, now: int): seq<Action> {
    if SensorUpdateDue(refs, inp.speed, now) then [UpdateBinSensorData] + SensorIssueActions(inp.bins) else []
  }

  /** What a running tick dispatches after its clock actions. */
  function LaterEffects(refs: EngineRefs, inp: EngineInputs, now: int): seq<Action>
    requires 0.0 <= refs.routeProgress <= 1.0 && inp.speed >= 0
  {
    AlertEffects(refs, inp, now) + SensorEffects(refs, inp, now) + RouteTick(inp, refs.routeProgress).effects
  }

  /** One tick: everything it dispatches, in order, and the refs it leaves. */
  function TickSpec(refs: EngineRefs, inp: EngineInputs, now: int): (r: TickOutcome)
    requires 0.0 <= refs.routeProgress <= 1.0 && inp.speed >= 0
    ensures !inp.isRunning ==> r == TickOutcome([], refs)
    ensures 0.0 <= r.refs.routeProgress <= 1.0
  {
    if !inp.isRunning then TickOutcome([], refs)
    else
      var step := RouteTick(inp, refs.routeProgress);
      TickOutcome(
        ClockEffects(inp, now) + LaterEffects(refs, inp, now),
        EngineRefs(if BinCheckDue(refs, now) then now else refs.lastBinCheck,
                   if SensorUpdateDue(refs, inp.speed, now) then now else refs.lastSensorUpdate,
                   step.progress))
  }

  /** The actions a tick dispatches after its three clock actions. */
  predicate AfterClock(a: Action) {
    a.UpdateBinSensorData? || a.UpdateRouteProgress? || a.EmptyBin? || a.AddNotification?
  }

  /** A running tick advances simulated time by real elapsed time times speed, stamps
      `now`, and hands the same elapsed value to the fill update. */
  lemma TickClock(refs: EngineRefs, inp: EngineInputs, now: int)
    requires 0.0 <= refs.routeProgress <= 1.0 && inp.speed >= 0 && inp.isRunning
    ensures var e := TickSpec(refs, inp, now).effects;
      && |e| >= 3
      && e[0] == UpdateSimulationTime(inp.currentTime + (now - inp.lastUpdateTime) * inp.speed)
      && e[1] == SetLastUpdateTime(now)
      && e[2] == UpdateBinFillLevels(e[0].time, inp.scenario, (now - inp.lastUpdateTime) * inp.speed)
      && e[0].time - inp.currentTime == e[2].elapsed
  {
  }

  /** The fill update is the third action of a running tick and its only fill update;
      every notification, sensor and route action comes after it. */
  lemma TickOrder(refs: EngineRefs, inp: EngineInputs, now: int)
    requires 0.0 <= refs.routeProgress <= 1.0 && inp.speed >= 0 && inp.isRunning
    ensures var e := TickSpec(refs, inp, now).effects;
      && (forall i :: 0 <= i < |e| ==> (e[i].UpdateBinFillLevels? <==> i == 2))
      && (forall i :: 0 <= i < |e| && AfterClock(e[i]) ==> i > 2)
  {
    LaterActionsAfterClock(refs, inp, now);
    ClockComesFirst(ClockEffects(inp, now), LaterEffects(refs, inp, now));
  }

  lemma LaterActionsAfterClock(refs: EngineRefs, inp: EngineInputs, now: int)
    requires 0.0 <= refs.routeProgress <= 1.0 && inp.speed >= 0
    ensures forall a :: a in LaterEffects(refs, inp, now) ==> AfterClock(a)
  {
    CriticalBinActionsAreAlerts(inp.bins);
    SensorIssueActionsAreAlerts(inp.bins);
    RouteTickAfterClock(inp, refs.routeProgress);
  }

  lemma RouteTickAfterClock(inp: EngineInputs, prev: real)
    requires 0.0 <= prev <= 1.0 && inp.speed >= 0
    ensures forall a :: a in RouteTick(inp, prev).effects ==> AfterClock(a)
  {
    match DrivenRoute(inp)
    case None =>
    case Some(k) =>
      var route := inp.routes[k];
      var p := NextProgress(prev, inp.speed);
      var collect := match CollectionIndex(route.points, p)
        case None => []
        case Some(j) =>
          [CollectionActionAsWritten(route.points[j].binId.value), AddNotification(BinCollectedNotice(route.points[j]))];
      var done := if p >= 1.0 then [AddNotification(RouteCompletedNotice(route))] else [];
      assert RouteTick(inp, prev).effects == [UpdateRouteProgress(inp.activeRouteId.value, p)] + collect + done;
  }

  /** The route step collects exactly at the point `CollectionIndex` picks on the driven
      route: then it dispatches the routes slice's emptyBin for that point's bin, followed by
      the "Bin Collected" notice, and it dispatches no other emptyBin. */
  lemma RouteTickCollectsAsWritten(inp: EngineInputs, prev: real)
    requires 0.0 <= prev <= 1.0 && inp.speed >= 0
    ensures forall a :: a in RouteTick(inp, prev).effects && a.EmptyBin? ==>
      && DrivenRoute(inp).Some?
      && (var points := inp.routes[DrivenRoute(inp).value].points;
          var j := CollectionIndex(points, NextProgress(prev, inp.speed));
          j.Some? && a == CollectionActionAsWritten(points[j.value].binId.value))
    ensures DrivenRoute(inp).Some? ==>
      var points := inp.routes[DrivenRoute(inp).value].points;
      var j := CollectionIndex(points, NextProgress(prev, inp.speed));
      j.Some? ==>
        && CollectionActionAsWritten(points[j.value].binId.value) in RouteTick(inp, prev).effects
        && AddNotification(BinCollectedNotice(points[j.value])) in RouteTick(inp, prev).effects
  {
    match DrivenRoute(inp)
    case None =>
    case Some(k) =>
      var route := inp.routes[k];
      var p := NextProgress(prev, inp.speed);
      var collect := match CollectionIndex(route.points, p)
        case None => []
        case Some(j) =>
          [CollectionActionAsWritten(route.points[j].binId.value), AddNotification(BinCollectedNotice(route.points[j]))];
      var done := if p >= 1.0 then [AddNotification(RouteCompletedNotice(route))] else [];
      assert RouteTick(inp, prev).effects == [UpdateRouteProgress(inp.activeRouteId.value, p)] + collect + done;
  }

  /** The only emptyBin actions of a running tick are those of its route step. */
  lemma TickCollectionsAreRouteCollections(refs: EngineRefs, inp: EngineInputs, now: int)
    requires 0.0 <= refs.routeProgress <= 1.0 && inp.speed >= 0 && inp.isRunning
    ensures forall a: Action :: a.EmptyBin? ==>
      (a in TickSpec(refs, inp, now).effects <==> a in RouteTick(inp, refs.routeProgress).effects)
  {
    var step := RouteTick(inp, refs.routeProgress);
    var checks := AlertEffects(refs, inp, now) + SensorEffects(refs, inp, now);
    CriticalBinActionsAreAlerts(inp.bins);
    SensorIssueActionsAreAlerts(inp.bins);
    assert forall a :: a in checks ==> !a.EmptyBin?;
    assert TickSpec(refs, inp, now).effects == ClockEffects(inp, now) + (checks + step.effects);
  }

  /** As written, a tick that reaches a bin dispatches an emptyBin for it, yet no emptyBin
      action of a tick changes the bins: the bins slice leaves them as they were. */
  lemma TickEmptiesNoBin(refs: EngineRefs, inp: EngineInputs, now: int, bins: seq<WasteBin>)
    requires 0.0 <= refs.routeProgress <= 1.0 && inp.speed >= 0
    ensures forall a :: a in TickSpec(refs, inp, now).effects && a.EmptyBin? ==>
      BinsOnEmptyAction(bins, a, now) == bins
    ensures inp.isRunning && DrivenRoute(inp).Some? ==>
      var points := inp.routes[DrivenRoute(inp).value].points;
      var j := CollectionIndex(points, NextProgress(refs.routeProgress, inp.speed));
      j.Some? ==> CollectionActionAsWritten(points[j.value].binId.value) in TickSpec(refs, inp, now).effects
  {
    if inp.isRunning {
      RouteTickCollectsAsWritten(inp, refs.routeProgress);
      TickCollectionsAreRouteCollections(refs, inp, now);
      forall a | a in TickSpec(refs, inp, now).effects && a.EmptyBin?
        ensures BinsOnEmptyAction(bins, a, now) == bins
      {
        assert a == CollectionActionAsWritten(a.binId);
        CollectionAsWrittenEmptiesNothing(bins, a.binId, now);
      }
    }
  }

  lemma ClockComesFirst(clock: seq<Action>, rest: seq<Action>)
    requires |clock| == 3 && clock[0].UpdateSimulationTime? && clock[1].SetLastUpdateTime?
    requires clock[2].UpdateBinFillLevels?
    requires forall a :: a in rest ==> AfterClock(a)
    ensures var e := clock + rest;
      && (forall i :: 0 <= i < |e| ==> (e[i].UpdateBinFillLevels? <==> i == 2))
      && (forall i :: 0 <= i < |e| && AfterClock(e[i]) ==> i > 2)
  {
    var e := clock + rest;
    forall i | 3 <= i < |e| ensures AfterClock(e[i]) {
      assert e[i] == rest[i - 3];
    }
  }

  /** When the fill check is due, its alerts are computed from the bins as they were
      before this tick's fill update, and they come right after the clock actions. */
  lemma TickChecksReadSnapshot(refs: EngineRefs, inp: EngineInputs, now: int)
    requires 0.0 <= refs.routeProgress <= 1.0 && inp.speed >= 0 && inp.isRunning
    requires BinCheckDue(refs, now)
    ensures var e := TickSpec(refs, inp, now).effects;
      var alerts := CriticalBinActions(inp.bins);
      |e| >= 3 + |alerts| && e[3..3 + |alerts|] == alerts
    ensures TickSpec(refs, inp, now).refs.lastBinCheck == now
  {
    var alerts := CriticalBinActions(inp.bins);
    var clock := ClockEffects(inp, now);
    var sensors := SensorEffects(refs, inp, now);
    var route := RouteTick(inp, refs.routeProgress).effects;
    assert TickSpec(refs, inp, now).effects == clock + (alerts + sensors + route);
    SliceOfConcat(clock, alerts, sensors + route);
  }

  lemma SliceOfConcat<T>(a: seq<T>, b: seq<T>, c: seq<T>)
    ensures (a + (b + c))[|a|..|a| + |b|] == b
  {
    assert (a + (b + c))[|a|..] == b + c;
  }

  /** A "Route Completed" notice is in the route part exactly when a route is driven and
      its new progress reaches 1. */
  lemma RouteTickCompletion(inp: EngineInputs, prev: real)
    requires 0.0 <= prev <= 1.0 && inp.speed >= 0
    ensures (exists a :: a in RouteTick(inp, prev).effects && IsRouteCompletedNotice(a)) <==>
            DrivenRoute(inp).Some? && NextProgress(prev, inp.speed) >= 1.0
  {
    var step := RouteTick(inp, prev);
    match DrivenRoute(inp)
    case None =>
    case Some(k) =>
      var route := inp.routes[k];
      var p := NextProgress(prev, inp.speed);
      var collect := match CollectionIndex(route.points, p)
        case None => []
        case Some(j) =>
          [CollectionActionAsWritten(route.points[j].binId.value), AddNotification(BinCollectedNotice(route.points[j]))];
      var done := if p >= 1.0 then [AddNotification(RouteCompletedNotice(route))] else [];
      assert step.effects == [UpdateRouteProgress(inp.activeRouteId.value, p)] + collect + done;
      assert forall a :: a in collect ==> !IsRouteCompletedNotice(a);
      if p >= 1.0 {
        assert AddNotification(RouteCompletedNotice(route)) in step.effects;
      }
  }

  /** The route progress ref after a tick: reset to 0 on completion, else the capped
      increment while a route is driven, else unchanged. */
  lemma TickRouteProgress(refs: EngineRefs, inp: EngineInputs, now: int)
    requires 0.0 <= refs.routeProgress <= 1.0 && inp.speed >= 0 && inp.isRunning
    ensures var r := TickSpec(refs, inp, now);
      && (DrivenRoute(inp).None? ==> r.refs.routeProgress == refs.routeProgress)
      && (DrivenRoute(inp).Some? ==>
            var p := NextProgress(refs.routeProgress, inp.speed);
            && r.refs.routeProgress == (if p >= 1.0 then 0.0 else p)
            && UpdateRouteProgress(inp.activeRouteId.value, p) in r.effects)
  {
    var step := RouteTick(inp, refs.routeProgress);
    var checks := AlertEffects(refs, inp, now) + SensorEffects(refs, inp, now);
    assert TickSpec(refs, inp, now).effects == ClockEffects(inp, now) + (checks + step.effects);
    if DrivenRoute(inp).Some? {
      var p := NextProgress(refs.routeProgress, inp.speed);
      assert step.effects[0] == UpdateRouteProgress(inp.activeRouteId.value, p);
    }
  }

  /** A "Route Completed" notice is dispatched exactly on the tick whose new progress
      reaches 1. */
  lemma TickCompletionNotice(refs: EngineRefs, inp: EngineInputs, now: int)
    requires 0.0 <= refs.routeProgress <= 1.0 && inp.speed >= 0 && inp.isRunning
    ensures (exists a :: a in TickSpec(refs, inp, now).effects && IsRouteCompletedNotice(a)) <==>
            DrivenRoute(inp).Some? && NextProgress(refs.routeProgress, inp.speed) >= 1.0
  {
    var step := RouteTick(inp, refs.routeProgress);
    var checks := AlertEffects(refs, inp, now) + SensorEffects(refs, inp, now);
    CriticalBinActionsAreAlerts(inp.bins);
    SensorIssueActionsAreAlerts(inp.bins);
    assert forall a :: a in checks ==> !IsRouteCompletedNotice(a);
    assert forall a :: a in ClockEffects(inp, now) ==> !IsRouteCompletedNotice(a);
    assert TickSpec(refs, inp, now).effects == ClockEffects(inp, now) + (checks + step.effects);
    RouteTickCompletion(inp, refs.routeProgress);
  }

  // ---------------------------------------------------------------- the engine

  class SimulationEngine {
    var lastBinCheck: int
    var lastSensorUpdate: int
    var routeProgress: real

    function Refs(): EngineRefs
      reads this
    {
      EngineRefs(lastBinCheck, lastSensorUpdate, routeProgress)
    }

    ghost predicate Valid()
      reads this
    {
      0.0 <= routeProgress <= 1.0
    }

    /** `now` stands for the Date.now() both timestamp refs start from. */
    constructor (now: int)
      ensures Refs() == EngineRefs(now, now, 0.0) && Valid()
    {
      lastBinCheck := now;
      lastSensorUpdate := now;
      routeProgress := 0.0;
    }

    /** The interval body; nothing happens while the simulation is not running. */
    method Tick(inp: EngineInputs, now: int) returns (effects: seq<Action>)
      requires Valid() && inp.speed >= 0
      modifies this
      ensures Valid()
      ensures TickOutcome(effects, Refs()) == TickSpec(old(Refs()), inp, now)
    {
      effects := [];
      if !inp.isRunning {
        return;
      }
      var realElapsed := now - inp.lastUpdateTime;
      var simulatedElapsed := realElapsed * inp.speed;
      var newTime := inp.currentTime + simulatedElapsed;
      var clock := [UpdateSimulationTime(newTime), SetLastUpdateTime(now),
                    UpdateBinFillLevels(newTime, inp.scenario, simulatedElapsed)];

      var alerts: seq<Action> := [];
      if now - lastBinCheck > BinCheckInterval {
        alerts := CheckCriticalBins(inp.bins);
        lastBinCheck := now;
      }
      assert alerts == AlertEffects(old(Refs()), inp, now);

      var sensors: seq<Action> := [];
      var simulatedSinceLastUpdate := now - lastSensorUpdate;
      if simulatedSinceLastUpdate * inp.speed > SensorUpdateInterval {
        var issues := CheckSensorIssues(inp.bins);
        sensors := [UpdateBinSensorData] + issues;
        lastSensorUpdate := now;
      }
      assert sensors == SensorEffects(old(Refs()), inp, now);

      var step := DriveRoute(inp, routeProgress);
      assert clock == ClockEffects(inp, now);
      effects := clock + (alerts + sensors + step.effects);
      routeProgress := step.progress;
    }

    /** The second effect: a change of active route id restarts the progress ref. */
    method ActiveRouteChanged()
      modifies this`routeProgress
      ensures routeProgress == 0.0 && Valid()
    {
      routeProgress := 0.0;
    }
  }
}
