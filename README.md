# SmartWaste city simulator — a Dafny model of its state core

The simulator keeps a city's waste bins in a Redux store made of four slices:

- `bins`: the bin registry, with fill levels and sensor data;
- `routes`: the traditional and the fill-ordered "optimized" collection routes, with their metrics;
- `notifications`: the alert feed and its unread counter;
- `simulation`: the clock, the speed and the scenario.

A timer component, the simulation engine, turns each tick into a sequence of dispatched actions. Those actions advance the clock and the bins' fill, raise threshold alerts, drive the active route and collect bins along it. The analytics dashboard summarises the bins and compares the two routes.

This project models those parts:

| file | module | models |
|---|---|---|
| `common.dfy` | `Common` | `Option`, JavaScript truthiness of an optional string, `findIndex` |
| `simulation.dfy` | `Simulation` | the simulation slice as a class `SimulationStore` |
| `bins.dfy` | `Bins` | the bins slice: fill growth, emptying, sensor updates and registry edits as functions, and a class `BinsStore` whose reducers are proved against them |
| `routes.dfy` | `Routes` | the routes slice: the metrics loop, building the traditional and optimized routes, the route lifecycle, and a class `RoutesStore` |
| `notifications.dfy` | `Notifications` | the notifications slice: the feed and its unread counter, and a class `NotificationsStore` |
| `engine.dfy` | `Engine` | one timer tick of the engine as a specification `TickSpec`, met by the method `SimulationEngine.Tick`; the critical-bin and sensor checks |
| `analytics.dfy` | `Analytics` | the dashboard's average fill, its fill buckets (shared with the fill-level chart) and its savings |

## How the model treats the source

Some source features become parameters or unbounded values:

- The slices' reducers become methods of one class per slice. Each method's `ensures` ties the new state to a pure function of the old state. Those functions carry the properties.
- `Date.now()` and `new Date()` are an `int` parameter in milliseconds.
- Each `Math.random()` draw is a `real` parameter. The functions and methods accept any real; the range `[0, 1)` is a precondition only of the lemmas that need it (`Bins.RandomFactorNonNegative`, `Bins.FillUpdateKeepsAllInRange`, `Bins.BatteryNonIncreasing`). A list-wide update takes one draw per bin.
- `Math.sqrt` is an abstract `real -> real` parameter. Only its non-negativity is assumed where a lemma needs it.
- JavaScript numbers are exact `real`s. Fill levels, battery levels and progress are `real`; times, speeds and counts are `int`.
- A dispatched action is a value of `Engine.Action`. A tick's result is the list of actions it dispatches, in dispatch order.
- The engine's three refs are the fields of `Engine.SimulationEngine`. The state the tick reads through its selectors is an `EngineInputs` value.

The model follows the code, including where it differs from what such a collection planner usually does:

- Segment lengths are Euclidean and scaled by 111, not haversine.
- The optimized route is only sorted by fill level, with no nearest-neighbour ordering.
- The optimized route needs a fill above 50, not 50 or more.
- The route points are not de-duplicated.
- Starting a second route is not rejected: `Routes.SecondRouteCanStart` shows both routes in progress.
- A bin may be collected on more than one tick of the same pass: `Engine.CollectionRepeats`.

## Model

| member | source | states |
|---|---|---|
| `Simulation.SimulationStore.constructor` | src/store/slices/simulationSlice.ts:15-21 | the initial state is not running, at speed 1, in the normal scenario, with both times equal to the creation time; the speed is one of the declared speeds |
| `Simulation.SimulationStore.StartSimulation` | src/store/slices/simulationSlice.ts:27-29 | sets running and changes nothing else |
| `Simulation.SimulationStore.PauseSimulation` | src/store/slices/simulationSlice.ts:30-32 | clears running and changes nothing else |
| `Simulation.SimulationStore.SetSpeed` | src/store/slices/simulationSlice.ts:33-35 | stores the payload speed unchecked and changes nothing else |
| `Simulation.SimulationStore.SetScenario` | src/store/slices/simulationSlice.ts:36-38 | stores the scenario and changes nothing else |
| `Simulation.SimulationStore.UpdateSimulationTime` | src/store/slices/simulationSlice.ts:39-41 | stores the simulated time and changes nothing else |
| `Simulation.SimulationStore.SetLastUpdateTime` | src/store/slices/simulationSlice.ts:42-44 | stores the last update time and changes nothing else |
| `Simulation.SimulationStore.ResetSimulation` | src/store/slices/simulationSlice.ts:45-49 | stops the run and resets both times to now; speed and scenario are kept |
| `Bins.ScenarioMultiplier` | src/store/slices/binsSlice.ts:87-94 | 0.7 for Cantonments at the weekend, 1.2 for Osu or Labone at the weekend, 2.0 in a special event, 1.0 otherwise; never below 0.7 |
| `Bins.FilledBin` | src/store/slices/binsSlice.ts:96-109 | only the fill level changes; the new level is the old level plus the increment, capped at 100 |
| `Bins.RandomFactorNonNegative` | src/store/slices/binsSlice.ts:100 | the random factor `1 + (2u - 1)·v` is non-negative for any draw when the variability is at most 1 |
| `Bins.RandomFactor` | src/store/slices/binsSlice.ts:100 | the factor `1 + (2u - 1)·v` for draw u and variability v; sign in `Bins.RandomFactorNonNegative` |
| `Bins.FillIncrement` | src/store/slices/binsSlice.ts:97-101 | fill rate × elapsed hours × scenario multiplier × random factor; sign in `Bins.FillIncrementNonNegative` |
| `Bins.FillIncrementNonNegative` | src/store/slices/binsSlice.ts:96-101 | with a non-negative elapsed time and fill rate, the increment is non-negative |
| `Bins.FillUpdateStaysInRange` | src/store/slices/binsSlice.ts:96-104 | a fill level in [0, 100] never decreases and stays at most 100 after an update |
| `Bins.FilledBins` | src/store/slices/binsSlice.ts:82-110 | the list keeps its length and bin i is updated with draw i |
| `Bins.FillUpdateShape` | src/store/slices/binsSlice.ts:82-110 | every bin keeps all its fields but the fill, which becomes min(100, fill + increment) |
| `Bins.FillUpdateKeepsAllInRange` | src/store/slices/binsSlice.ts:82-110 | over the whole registry, fill levels never go down and never pass 100 |
| `Bins.FindBin` | src/store/slices/binsSlice.ts:114 | the first index with the id, or None exactly when no bin has it |
| `Bins.EmptiedBins` | src/store/slices/binsSlice.ts:113-119 | the first bin with the id gets fill 0 and collection time now; every other bin is unchanged; an unknown id changes nothing |
| `Bins.ConnectivityFromRoll` | src/store/slices/binsSlice.ts:124-133 | offline iff roll < 0.005, intermittent iff 0.005 ≤ roll < 0.01, online otherwise |
| `Bins.BatteryDecrease` | src/store/slices/binsSlice.ts:136 | for a draw in [0, 1) the decrease lies in [0.01, 0.05) |
| `Bins.SensedBin` | src/store/slices/binsSlice.ts:123-148 | only the sensor data changes: connectivity from the roll, battery max(0, level − decrease), transmission time now |
| `Bins.BatteryNonIncreasing` | src/store/slices/binsSlice.ts:136-137 | battery stays in [0, old level] and drops by at least 0.01 while it is at least 0.01 |
| `Bins.ConnectivityIsMemoryless` | src/store/slices/binsSlice.ts:125-133 | the new connectivity depends only on the roll, not on the bin's previous state |
| `Bins.SensedBins` | src/store/slices/binsSlice.ts:121-149 | the list keeps its length and bin i is updated with draw i |
| `Bins.WithoutBin` | src/store/slices/binsSlice.ts:155-157 | a bin is kept iff it was present and has another id |
| `Bins.WithoutBinAppend` | src/store/slices/binsSlice.ts:156 | filtering distributes over concatenation |
| `Bins.WithoutAbsentBin` | src/store/slices/binsSlice.ts:156 | removing an id no bin has leaves the list unchanged |
| `Bins.AddThenRemove` | src/store/slices/binsSlice.ts:151-157 | adding a bin with a fresh id and then removing that id restores the registry |
| `Bins.ClampFill` | src/store/slices/binsSlice.ts:163 | the result lies in [0, 100], equals the input inside that range, and is the nearer bound outside it |
| `Bins.WithManualFill` | src/store/slices/binsSlice.ts:159-165 | the first bin with the id gets the clamped level; all else is unchanged; an unknown id changes nothing |
| `Bins.BinsStore.constructor` | src/store/slices/binsSlice.ts:70-72 | the registry starts as the given generated list |
| `Bins.BinsStore.UpdateBinFillLevels` | src/store/slices/binsSlice.ts:78-111 | the registry becomes `FilledBins` of the old registry |
| `Bins.BinsStore.EmptyBin` | src/store/slices/binsSlice.ts:113-119 | the registry becomes `EmptiedBins` of the old registry |
| `Bins.BinsStore.UpdateBinSensorData` | src/store/slices/binsSlice.ts:121-149 | the registry becomes `SensedBins` of the old registry |
| `Bins.BinsStore.AddBin` | src/store/slices/binsSlice.ts:151-153 | the bin is appended at the end |
| `Bins.BinsStore.RemoveBin` | src/store/slices/binsSlice.ts:155-157 | the registry becomes `WithoutBin` of the old registry |
| `Bins.BinsStore.SetManualFillLevel` | src/store/slices/binsSlice.ts:159-165 | the registry becomes `WithManualFill` of the old registry |
| `Bins.BinsStore.ResetBins` | src/store/slices/binsSlice.ts:167-169 | the registry is replaced by a freshly generated list |
| `Routes.SegmentLengthNonNegative` | src/store/slices/routesSlice.ts:59-62 | with a non-negative root, a segment's length is non-negative |
| `Routes.PathLengthNonNegative` | src/store/slices/routesSlice.ts:51-63 | the total distance is non-negative and is 0 for fewer than two points |
| `Routes.CountPickups` | src/store/slices/routesSlice.ts:52 | the number of points with a truthy bin id is at most the number of points |
| `Routes.CountPickupsAppend` | src/store/slices/routesSlice.ts:52 | the pickup count is additive over concatenation |
| `Routes.SegmentLength` | src/store/slices/routesSlice.ts:59-62 | the Euclidean length of a leg in degrees, scaled by 111 km; its sign is proved by `Routes.SegmentLengthNonNegative` |
| `Routes.PathLength` | src/store/slices/routesSlice.ts:55-63 | the sum of the leg lengths between consecutive points; bounds in `Routes.PathLengthNonNegative` |
| `Routes.IsMetricsOf` | src/store/slices/routesSlice.ts:66-78 | the metrics of a point list: distance, bin count, duration distance/30·60 + 2 per bin, fuel 0.3·distance, CO2 2.68·fuel |
| `Routes.CalculateRouteMetrics` | src/store/slices/routesSlice.ts:48-80 | the loop's distance is the path length; bins, duration (distance/30·60 + 2 per bin), fuel (0.3 per km) and CO2 (2.68 per litre) follow from it |
| `Routes.PickupsOf` | src/store/slices/routesSlice.ts:100-105 | one pickup point per bin, in order, with the bin's location and id |
| `Routes.Bracketed` | src/store/slices/routesSlice.ts:112-127 | the depot, then one pickup per stop in order, then the depot again |
| `Routes.TraditionalPoints` | src/store/slices/routesSlice.ts:95-107 | the depot, every bin in registry order, then the depot: length is the bin count plus 2 |
| `Routes.BuildTraditionalPoints` | src/store/slices/routesSlice.ts:95-107 | the push loop builds exactly `TraditionalPoints` |
| `Routes.TraditionalCollectsEveryBin` | src/store/slices/routesSlice.ts:52 | when every bin has an id, the traditional route's bin count is the number of bins |
| `Routes.PickupsOfCount` | src/store/slices/routesSlice.ts:52 | when every bin has an id, each pickup point counts once |
| `Routes.PickupCount` | src/store/slices/routesSlice.ts:52 | the depot points do not count as pickups |
| `Routes.InsertByFill` | src/store/slices/routesSlice.ts:110 | inserting adds exactly one element, as a multiset |
| `Routes.SortByFillDesc` | src/store/slices/routesSlice.ts:110 | the sort is a permutation of its input |
| `Routes.InsertByFillSorted` | src/store/slices/routesSlice.ts:110 | inserting into a list sorted by descending fill keeps it sorted |
| `Routes.SortByFillDescSorted` | src/store/slices/routesSlice.ts:110 | the sort's result is ordered by non-increasing fill level |
| `Routes.NeedsCollection` | src/store/slices/routesSlice.ts:117-125 | the filter never lengthens the list |
| `Routes.NeedsCollectionMultiset` | src/store/slices/routesSlice.ts:117-125 | every bin above 50 keeps its multiplicity; every other bin is dropped |
| `Routes.NeedsCollectionMembers` | src/store/slices/routesSlice.ts:117-125 | a bin is kept iff it is in the input and its fill is above 50 |
| `Routes.NeedsCollectionKeepsOrder` | src/store/slices/routesSlice.ts:117-125 | filtering a list sorted by descending fill keeps it sorted |
| `Routes.OptimizedStopsSpec` | src/store/slices/routesSlice.ts:110-125 | the optimized stops are exactly the bins above 50, counted with multiplicity, in non-increasing fill order |
| `Routes.BuildOptimizedPoints` | src/store/slices/routesSlice.ts:110-127 | the sort and the guarded push loop build exactly `OptimizedPoints` |
| `Routes.OptimizedStops` | src/store/slices/routesSlice.ts:110-125 | the bins sorted by descending fill and filtered to those above 50; characterised by `Routes.OptimizedStopsSpec` |
| `Routes.OptimizedPoints` | src/store/slices/routesSlice.ts:112-127 | the optimized route: the depot, the optimized stops in order, the depot; shape from `Routes.Bracketed` |
| `Routes.PickupsOfSnoc` | src/store/slices/routesSlice.ts:100-105 | pushing one bin appends one pickup point |
| `Routes.OptimizedPickupsAreTraditional` | src/store/slices/routesSlice.ts:95-127 | every stop of the optimized route is also a stop of the traditional route |
| `Routes.NewRoute` | src/store/slices/routesSlice.ts:139-158 | a generated route: not in progress, not completed, progress 0, with its points and metrics; used by `Routes.RoutesStore.GenerateRoutes` |
| `Routes.FindRoute` | src/store/slices/routesSlice.ts:167 | the first route with the id, or None exactly when there is none |
| `Routes.StartedRoutes` | src/store/slices/routesSlice.ts:163-173 | the found route becomes in progress, not completed, with progress 0; the others are unchanged |
| `Routes.ProgressedRoutes` | src/store/slices/routesSlice.ts:176-192 | the found route takes the progress; at 1 or more it becomes completed and not in progress; the others are unchanged |
| `Routes.StartKeepsLifecycle` | src/store/slices/routesSlice.ts:163-173 | starting keeps every route from being both in progress and completed |
| `Routes.ProgressKeepsLifecycle` | src/store/slices/routesSlice.ts:176-192 | updating progress keeps every route from being both in progress and completed |
| `Routes.SecondRouteCanStart` | src/store/slices/routesSlice.ts:163-173 | starting the optimized route after the traditional one leaves both in progress |
| `Routes.RoutesStore.constructor` | src/store/slices/routesSlice.ts:40-45 | no routes, no active route, no metrics |
| `Routes.RoutesStore.GenerateRoutes` | src/store/slices/routesSlice.ts:88-160 | exactly two routes, traditional then optimized, with their points, their metrics and a fresh lifecycle; the metrics are stored too; the active route is untouched |
| `Routes.RoutesStore.StartRoute` | src/store/slices/routesSlice.ts:163-173 | the active id becomes the payload even for an unknown id; the routes become `StartedRoutes` |
| `Routes.RoutesStore.UpdateRouteProgress` | src/store/slices/routesSlice.ts:176-192 | the routes become `ProgressedRoutes`; the active id is cleared iff the route exists and progress is at least 1 |
| `Routes.RoutesStore.EmptyBin` | src/store/slices/routesSlice.ts:195-198 | the placeholder reducer changes nothing |
| `Routes.RoutesStore.ResetRoutes` | src/store/slices/routesSlice.ts:201-206 | no routes, no active route, no metrics |
| `Notifications.NewNotification` | src/store/slices/notificationsSlice.ts:29-36 | the payload's fields, the generated id and timestamp, and unread |
| `Notifications.UnreadCount` | src/store/slices/notificationsSlice.ts:15-18 | the number of unread entries is at most the length of the feed |
| `Notifications.UnreadCountUpdate` | src/store/slices/notificationsSlice.ts:42-44 | replacing one entry changes the unread count by the change in that entry's read flag |
| `Notifications.UnreadEntryCounts` | src/store/slices/notificationsSlice.ts:42-44 | a feed with an unread entry has a positive unread count |
| `Notifications.FindNotification` | src/store/slices/notificationsSlice.ts:41 | the first entry with the id, or None exactly when there is none |
| `Notifications.MarkedRead` | src/store/slices/notificationsSlice.ts:40-46 | the first entry with the id becomes read if it was unread; all else is unchanged |
| `Notifications.MarkAsReadIdempotent` | src/store/slices/notificationsSlice.ts:40-46 | marking the same id twice equals marking it once |
| `Notifications.AllRead` | src/store/slices/notificationsSlice.ts:48-51 | every entry keeps its fields and becomes read |
| `Notifications.AllReadHasNoUnread` | src/store/slices/notificationsSlice.ts:48-53 | after marking all, no entry is unread |
| `Notifications.MarkAllAsReadIdempotent` | src/store/slices/notificationsSlice.ts:48-53 | marking all twice equals marking all once |
| `Notifications.AddKeepsCounter` | src/store/slices/notificationsSlice.ts:29-38 | prepending an unread entry and incrementing keeps the counter equal to the unread entries |
| `Notifications.MarkAsReadKeepsCounter` | src/store/slices/notificationsSlice.ts:40-46 | the clamped decrement keeps the counter equal to the unread entries |
| `Notifications.MarkAllAsReadKeepsCounter` | src/store/slices/notificationsSlice.ts:48-53 | after marking all, a counter of 0 is exact |
| `Notifications.NotificationsStore.constructor` | src/store/slices/notificationsSlice.ts:20-23 | an empty feed with counter 0, which is consistent |
| `Notifications.NotificationsStore.AddNotification` | src/store/slices/notificationsSlice.ts:29-38 | the new entry is prepended, the counter goes up by one, and consistency is kept |
| `Notifications.NotificationsStore.MarkAsRead` | src/store/slices/notificationsSlice.ts:40-46 | the feed becomes `MarkedRead`; the counter drops by one, not below 0, only when an unread entry was marked; consistency is kept |
| `Notifications.NotificationsStore.MarkAllAsRead` | src/store/slices/notificationsSlice.ts:48-53 | the loop marks every entry read; the counter becomes 0, which is consistent |
| `Notifications.NotificationsStore.ClearNotifications` | src/store/slices/notificationsSlice.ts:55-58 | an empty feed with counter 0 |
| `Engine.CollectionActionAsWritten` | src/components/simulator/SimulationEngine.tsx:101 | the collection action the engine dispatches: the routes slice's `emptyBin`, of type `routes/emptyBin` |
| `Engine.CollectionAction` | src/store/slices/binsSlice.ts:113 | the corrected collection action: the bins slice's `emptyBin`, of type `bins/emptyBin` |
| `Engine.BinsOnEmptyAction` | src/store/slices/binsSlice.ts:113-119 | the bins slice's answer to an emptyBin action: `EmptiedBins` for its own type, no change for any other |
| `Engine.CollectionAsWrittenEmptiesNothing` | src/components/simulator/SimulationEngine.tsx:101 | the dispatched `routes/emptyBin` action, which the bins slice does not handle, leaves every bin as it was |
| `Engine.CollectionAsWrittenLeavesBinFull` | src/components/simulator/SimulationEngine.tsx:101 | a bin at 95% that the route reaches stays at 95% |
| `Engine.CollectionEmptiesBin` | src/components/simulator/SimulationEngine.tsx:98-101 | the corrected `bins/emptyBin` action empties the first bin with the id and stamps its collection time, and leaves every other bin unchanged |
| `Engine.CriticalFillAlert` | src/components/simulator/SimulationEngine.tsx:145-161 | an alert iff fill ≥ 90 or 75 ≤ fill < 80; it names the bin; high priority iff ≥ 90, medium iff below 90 |
| `Engine.CriticalBinActions` | src/components/simulator/SimulationEngine.tsx:142-163 | at most one action per bin |
| `Engine.CriticalBinActionsAreAlerts` | src/components/simulator/SimulationEngine.tsx:142-163 | every action the check dispatches is an add-notification about a bin |
| `Engine.CheckCriticalBins` | src/components/simulator/SimulationEngine.tsx:142-163 | the loop dispatches exactly `CriticalBinActions`, in bin order |
| `Engine.NoFillAlertBetween80And90` | src/components/simulator/SimulationEngine.tsx:145-153 | bins between 80 and 90 raise no fill alert |
| `Engine.LowBatteryAlert` | src/components/simulator/SimulationEngine.tsx:169-177 | an alert iff battery < 20, about the bin, at low priority |
| `Engine.ConnectivityAlert` | src/components/simulator/SimulationEngine.tsx:180-188 | an alert iff the bin is not online, about the bin, at medium priority, naming the connectivity state |
| `Engine.SensorIssueActions` | src/components/simulator/SimulationEngine.tsx:166-190 | at most two actions per bin |
| `Engine.SensorIssueActionsAreAlerts` | src/components/simulator/SimulationEngine.tsx:166-190 | every action the check dispatches is an add-notification about a bin |
| `Engine.CheckSensorIssues` | src/components/simulator/SimulationEngine.tsx:166-190 | the loop dispatches exactly `SensorIssueActions`: per bin, the battery alert before the connectivity alert |
| `Engine.NextProgress` | src/components/simulator/SimulationEngine.tsx:74-75 | progress never decreases and never passes 1; below 1 it is the old progress plus 0.02·speed; it is 1 iff that sum reaches 1 |
| `Engine.WaypointAt` | src/components/simulator/SimulationEngine.tsx:90-94 | the segment index is the floor of progress·segments, and the fraction into it lies in [0, 1) |
| `Engine.CollectionIndex` | src/components/simulator/SimulationEngine.tsx:90-99 | a collection happens only at a non-first point that carries a bin id |
| `Engine.CollectionIndexIff` | src/components/simulator/SimulationEngine.tsx:90-99 | point k is collected iff it has a bin id, 1 ≤ k < the point count, and progress·segments lies strictly between k − 1 + 0.8 and k |
| `Engine.NoCollectionAtCompletion` | src/components/simulator/SimulationEngine.tsx:90-97 | at progress 1 no point is collected, so the final depot is never visited as a bin |
| `Engine.CollectionRepeats` | src/components/simulator/SimulationEngine.tsx:74-101 | on a 5-point route at speed 1, the same first bin is collected at progress 0.22 and again at 0.24 |
| `Engine.BinCollectedNotice` | src/components/simulator/SimulationEngine.tsx:104-110 | the "Bin Collected" notice: success, low priority, about the point's bin, with its coordinates; dispatched per `Engine.RouteTickCollectsAsWritten` |
| `Engine.RouteCompletedNotice` | src/components/simulator/SimulationEngine.tsx:122-127 | the "Route Completed" notice: success, medium priority, no bin, naming the route; dispatched per `Engine.RouteTickCompletion` |
| `Engine.DrivenRoute` | src/components/simulator/SimulationEngine.tsx:70-72 | a route is driven iff the active id is truthy and the first route with that id exists and is not completed; the driven route is that first match |
| `Engine.RouteTick` | src/components/simulator/SimulationEngine.tsx:70-130 | the progress ref stays in [0, 1]; a collection dispatches the routes slice's `emptyBin`, as the engine does |
| `Engine.DriveRoute` | src/components/simulator/SimulationEngine.tsx:70-130 | the statement-by-statement route step, with its `routes/emptyBin` collection, equals `RouteTick` |
| `Engine.RouteTickCompletion` | src/components/simulator/SimulationEngine.tsx:115-128 | the route step sends a route-completed notice iff a route is driven and the new progress reaches 1 |
| `Engine.RouteTickAfterClock` | src/components/simulator/SimulationEngine.tsx:70-130 | the route step dispatches only progress updates, bin collections and notices |
| `Engine.RouteTickCollectsAsWritten` | src/components/simulator/SimulationEngine.tsx:97-110 | a route step dispatches an emptyBin only on a driven route whose `CollectionIndex` is some j, and then it is `routes/emptyBin` for point j's bin; conversely, whenever j exists, that action and the "Bin Collected" notice for point j are dispatched |
| `Engine.TickCollectionsAreRouteCollections` | src/components/simulator/SimulationEngine.tsx:35-130 | the emptyBin actions of a running tick are exactly those of its route step |
| `Engine.TickEmptiesNoBin` | src/components/simulator/SimulationEngine.tsx:35-130 | a running tick that reaches a collectable point dispatches `routes/emptyBin` for its bin, yet every emptyBin action of a tick leaves the bins unchanged in the bins slice |
| `Engine.ClockEffects` | src/components/simulator/SimulationEngine.tsx:36-53 | the three clock actions: new time current + elapsed·speed, the stamp now, and the fill update with that elapsed time; stated by `Engine.TickClock` |
| `Engine.BinCheckDue` | src/components/simulator/SimulationEngine.tsx:56 | more than 5000 ms of wall-clock time since the last fill check |
| `Engine.SensorUpdateDue` | src/components/simulator/SimulationEngine.tsx:62-63 | wall-clock time since the last sensor update, times speed, exceeds 15 minutes |
| `Engine.AlertEffects` | src/components/simulator/SimulationEngine.tsx:56-59 | the fill alerts of a tick: `CriticalBinActions` of the bins read, when the check is due, else none; placed by `Engine.TickChecksReadSnapshot` |
| `Engine.SensorEffects` | src/components/simulator/SimulationEngine.tsx:62-67 | when the sensor update is due, the sensor-data action followed by `SensorIssueActions` of the bins read, else none |
| `Engine.TickSpec` | src/components/simulator/SimulationEngine.tsx:31-130 | a stopped simulation does nothing; a running one keeps the progress ref in [0, 1] |
| `Engine.TickClock` | src/components/simulator/SimulationEngine.tsx:36-53 | the first three actions set the simulated time to current + elapsed·speed, record now, and grow the fill by the same simulated elapsed time |
| `Engine.TickOrder` | src/components/simulator/SimulationEngine.tsx:43-128 | the fill update is dispatched exactly once, third; every alert, sensor, route or collection action comes after it |
| `Engine.LaterActionsAfterClock` | src/components/simulator/SimulationEngine.tsx:55-128 | nothing after the clock actions updates the clock or the fill |
| `Engine.TickChecksReadSnapshot` | src/components/simulator/SimulationEngine.tsx:56-59 | when the bin check is due, the alerts follow the clock actions and are computed from the bins the tick read, before its own fill update applies; the check time becomes now |
| `Engine.TickRouteProgress` | src/components/simulator/SimulationEngine.tsx:69-128 | with no driven route the progress ref is kept; otherwise the progress update is dispatched and the ref becomes the new progress, or 0 on completion |
| `Engine.TickCompletionNotice` | src/components/simulator/SimulationEngine.tsx:117-128 | a tick sends a route-completed notice iff a route is driven and its new progress reaches 1 |
| `Engine.SimulationEngine.constructor` | src/components/simulator/SimulationEngine.tsx:24-27 | both check refs start at now and the progress ref at 0 |
| `Engine.SimulationEngine.Tick` | src/components/simulator/SimulationEngine.tsx:35-130 | the dispatched actions, including the `routes/emptyBin` collections, and the new refs are exactly `TickSpec` of the old refs; progress stays in [0, 1] |
| `Engine.SimulationEngine.ActiveRouteChanged` | src/components/simulator/SimulationEngine.tsx:137-139 | the progress ref is reset to 0 |
| `Analytics.CountWhere` | src/components/dashboard/AnalyticsDashboard.tsx:23-28 | a filter count is at most the number of bins |
| `Analytics.BinsByFillLevel` | src/components/dashboard/AnalyticsDashboard.tsx:24-29 | the four bucket counts < 50, [50, 75), [75, 90), ≥ 90, as in the fill-level chart; partition proved by `Analytics.BucketsSumToLength` |
| `Analytics.BucketsSumToLength` | src/components/dashboard/FillLevelChart.tsx:22-25 | the four buckets partition the bins: their counts add up to the number of bins |
| `Analytics.BucketsAppend` | src/components/dashboard/AnalyticsDashboard.tsx:24-29 | one more bin raises exactly one bucket, chosen by < 50, < 75 and < 90, with each boundary going to the higher bucket |
| `Analytics.CriticalHeadline` | src/components/dashboard/AnalyticsDashboard.tsx:23-28 | the headline count (> 75) is high plus critical minus the bins at exactly 75 |
| `Analytics.SumFill` | src/components/dashboard/AnalyticsDashboard.tsx:22 | the `reduce` sum of the fill levels; bounds in `Analytics.SumFillBounds` |
| `Analytics.AverageFillLevel` | src/components/dashboard/AnalyticsDashboard.tsx:22 | an average exists iff there is at least one bin |
| `Analytics.SumFillBounds` | src/components/dashboard/AnalyticsDashboard.tsx:22 | with levels in [0, 100], the sum lies in [0, 100·n] |
| `Analytics.AverageInRange` | src/components/dashboard/AnalyticsDashboard.tsx:22 | with levels in [0, 100], the average lies in [0, 100] |
| `Analytics.SumFillUniform` | src/components/dashboard/AnalyticsDashboard.tsx:22 | n bins at one level sum to level·n |
| `Analytics.AverageOfUniformBins` | src/components/dashboard/AnalyticsDashboard.tsx:22 | bins all at one level average to that level |
| `Analytics.ComputeSavings` | src/components/dashboard/AnalyticsDashboard.tsx:32-45 | all zeros unless both metrics are present; otherwise the componentwise difference, traditional minus optimized |
| `Analytics.SavingsFollowDistance` | src/components/dashboard/AnalyticsDashboard.tsx:39-44 | for computed metrics, fuel saved is 0.3·distance saved, CO2 saved is 2.68·0.3·distance saved, and time saved is distance/30·60 plus 2 per bin fewer |
| `Analytics.RoutesStateProperty` | src/store/slices/routesSlice.ts:32-37 | a property of the routes state is undefined iff it is not one of its four declared fields |
| `Analytics.SavingsAsWritten` | src/components/dashboard/AnalyticsDashboard.tsx:19-45 | the savings block as written, reading metrics off `state.routes.routeComparison`; proved always to throw by `Analytics.SavingsAsWrittenAlwaysThrows` |
| `Analytics.SavingsAsWrittenAlwaysThrows` | src/components/dashboard/AnalyticsDashboard.tsx:19-39 | reading metrics through the undeclared `routeComparison` throws, whatever the metrics are |
| `Analytics.DashboardSavings` | src/components/dashboard/AnalyticsDashboard.tsx:32-45 | the corrected selector reads the two declared metrics fields and always computes the savings `ComputeSavings` gives for them |
| `Analytics.DashboardSavingsAreDifferences` | src/components/dashboard/AnalyticsDashboard.tsx:40-44 | with both metrics present, the corrected savings are the four differences |

## Left out

- Timers and React: `setInterval`, `useEffect` and the one-second tick cadence are not modelled. One call of `SimulationEngine.Tick` is one timer callback with the selector values it closed over. The console logging is not modelled.
- The composition of a tick's actions with the reducers is not modelled. A tick returns its actions; only the collection action is applied to the bins, by `Engine.BinsOnEmptyAction`, for the first finding.
- Engine.CollectionEmptiesBin: the corrected collection is proved for the corrected action on its own. The tick follows the code as written and dispatches `routes/emptyBin`, so no corrected variant of the whole tick is modelled.
- Message text is not modelled: the template strings, `toFixed(4)` and `Math.round` become a `Message` constructor carrying the values it would print.
- Floating point: numbers are exact reals, so rounding and NaN are not modelled. The dashboard's empty-list average, which is `0/0 = NaN` in JavaScript, is `None`.
- Randomness, clocks and generated ids are parameters. `generateInitialBins` is not modelled; `ResetBins` and the `BinsStore` constructor take the regenerated list.
- `Math.sqrt` is an abstract parameter, so the distances are not computed numerically.
- Routes.SortByFillDesc: stability of `Array.prototype.sort` is not stated as a lemma. The model is a stable insertion sort, so equal-fill bins keep their registry order, but only sortedness and permutation are proved.
- Engine.CollectionIndex: requires a progress in [0, 1]. The engine only passes such values, because of its `Math.min(1, …)`; the function is not defined for a progress outside that range.
- Simulation.SimulationStore.SetSpeed: the payload type restricts speeds to 1, 2, 4 and 8, but the reducer stores any number, so the method does not promise `IsDeclaredSpeed`.
- The vehicle animation (CityMap), the route and notification panels, the bin form, the chart rendering, the tooltip percentages of the fill-level chart and the dashboard's other rendered uses of `routeComparison` are UI and are not part of this model.
- The store wiring in `src/store/index.ts` and the typed hooks are not part of this model.

## Findings

| source | as written | input that shows it | evidently intended | confidence | as-written member | corrected member |
|---|---|---|---|---|---|---|
| src/components/simulator/SimulationEngine.tsx:7 | the engine imports `emptyBin` from the routes slice, whose reducer is an empty placeholder (routesSlice.ts:195-198); the bins slice has no handler for `routes/emptyBin`, so a bin the truck reaches is never emptied | any tick that reaches a bin with fill 95: it stays at 95 | dispatch the bins slice's `emptyBin` (`bins/emptyBin`), as the bin details panel does | high; not executed | `Engine.CollectionAsWrittenEmptiesNothing`, `Engine.CollectionAsWrittenLeavesBinFull`, `Engine.TickEmptiesNoBin` (a tick reaching a bin dispatches `Engine.CollectionActionAsWritten` for it, which leaves the bin as it was) | `Engine.CollectionEmptiesBin` (with `Engine.CollectionAction`) |
| src/components/dashboard/AnalyticsDashboard.tsx:19 | the dashboard selects `state.routes.routeComparison`, which the routes state does not declare (routesSlice.ts:32-37), so it is `undefined` and line 39 throws a TypeError on every render | any state, even with both metrics present | read `state.routes.traditionalMetrics` and `state.routes.optimizedMetrics` | high; not executed | `Analytics.SavingsAsWritten`, `Analytics.SavingsAsWrittenAlwaysThrows` | `Analytics.DashboardSavings`, `Analytics.DashboardSavingsAreDifferences` |
