/** The bin registry slice: the list of bins and the reducers that grow, empty,
    re-sense, add, remove and override them. Every random draw is a parameter. */
module Bins {
  import opened Common
  import opened Simulation

  datatype Location = Location(lat: real, lng: real)

  datatype Connectivity = Online | Offline | Intermittent

  datatype BinType = General | Recycling | Organic

  /** Times are milliseconds since the epoch. */
  datatype SensorData = SensorData(batteryLevel: real, connectivity: Connectivity, lastTransmission: int)

  datatype WasteBin = WasteBin(
    id: string,
    location: Location,
    name: string,
    fillLevel: real,          // percent
    capacity: int,            // litres
    baseFillRate: real,       // percent per hour
    variabilityFactor: real,
    sensorData: SensorData,
    lastCollectionTime: int,
    neighborhood: string,
    binType: BinType)

  const MsPerHour: real := 3600000.0
  const MaxFill: real := 100.0

  // ---------------------------------------------------------------- fill growth

  /** Scenario multiplier for one bin's neighbourhood; the branches are tried in order. */
  function ScenarioMultiplier(scenario: Scenario, neighborhood: string): (m: real)
    ensures scenario == Weekend && neighborhood == "Cantonments" ==> m == 0.7
    ensures (scenario == Weekend && neighborhood != "Cantonments"
             && (neighborhood == "Osu" || neighborhood == "Labone")) ==> m == 1.2
    ensures scenario == SpecialEvent ==> m == 2.0
    ensures scenario == Normal ==> m == 1.0
    ensures (scenario == Weekend && neighborhood != "Cantonments" && neighborhood != "Osu"
             && neighborhood != "Labone") ==> m == 1.0
    ensures m >= 0.7
  {
    if scenario == Weekend && neighborhood == "Cantonments" then 0.7
    else if scenario == Weekend && (neighborhood == "Osu" || neighborhood == "Labone") then 1.2
    else if scenario == SpecialEvent then 2.0
    else 1.0
  }

  /** `1 + (U*2 - 1) * variabilityFactor` for the draw U = Math.random(). */
  function RandomFactor(u: real, variability: real): real {
    1.0 + (u * 2.0 - 1.0) * variability
  }

  /** The fill increment for `elapsed` simulated milliseconds. */
  function FillIncrement(bin: WasteBin, elapsed: int, scenario: Scenario, u: real): real {
    bin.baseFillRate * (elapsed as real / MsPerHour) * ScenarioMultiplier(scenario, bin.neighborhood)
      * RandomFactor(u, bin.variabilityFactor)
  }

  /** One bin after a fill update: only the fill level changes, and it is capped at 100. */
  function FilledBin(bin: WasteBin, elapsed: int, scenario: Scenario, u: real): (r: WasteBin)
    ensures r == bin.(fillLevel := r.fillLevel)
    ensures r.fillLevel <= MaxFill
    ensures r.fillLevel <= bin.fillLevel + FillIncrement(bin, elapsed, scenario, u)
    ensures r.fillLevel == MaxFill || r.fillLevel == bin.fillLevel + FillIncrement(bin, elapsed, scenario, u)
  {
    bin.(fillLevel := MinReal(MaxFill, bin.fillLevel + FillIncrement(bin, elapsed, scenario, u)))
  }

  lemma RandomFactorNonNegative(u: real, v: real)
    requires 0.0 <= u < 1.0 && 0.0 <= v <= 1.0
    ensures RandomFactor(u, v) >= 0.0
  {
    var d := u * 2.0 - 1.0;
    assert -1.0 <= d < 1.0;
    if d >= 0.0 {
      assert d * v >= 0.0;
    } else {
      assert (-d) * v <= 1.0 * v by {
        assert -d <= 1.0;
      }
    }
  }

  lemma {:induction false} FillIncrementNonNegative(bin: WasteBin, elapsed: int, scenario: Scenario, u: real)
    requires elapsed >= 0 && bin.baseFillRate >= 0.0
    requires 0.0 <= bin.variabilityFactor <= 1.0 && 0.0 <= u < 1.0
    ensures FillIncrement(bin, elapsed, scenario, u) >= 0.0
  {
    RandomFactorNonNegative(u, bin.variabilityFactor);
    var hours := elapsed as real / MsPerHour;
    var m := ScenarioMultiplier(scenario, bin.neighborhood);
    var f := RandomFactor(u, bin.variabilityFactor);
    assert hours >= 0.0;
    assert bin.baseFillRate * hours >= 0.0;
    assert bin.baseFillRate * hours * m >= 0.0;
    assert bin.baseFillRate * hours * m * f >= 0.0;
  }

  /** A bin whose level starts in [0,100] never loses fill and stays in [0,100]. */
  lemma FillUpdateStaysInRange(bin: WasteBin, elapsed: int, scenario: Scenario, u: real)
    requires elapsed >= 0 && bin.baseFillRate >= 0.0
    requires 0.0 <= bin.variabilityFactor <= 1.0 && 0.0 <= u < 1.0
    requires 0.0 <= bin.fillLevel <= MaxFill
    ensures bin.fillLevel <= FilledBin(bin, elapsed, scenario, u).fillLevel <= MaxFill
  {
    FillIncrementNonNegative(bin, elapsed, scenario, u);
  }

  /** `state.bins.map(...)`: every bin updated with its own draw. */
  function FilledBins(bins: seq<WasteBin>, elapsed: int, scenario: Scenario, draws: seq<real>): (r: seq<WasteBin>)
    requires |draws| == |bins|
    ensures |r| == |bins|
    ensures forall i :: 0 <= i < |bins| ==> r[i] == FilledBin(bins[i], elapsed, scenario, draws[i])
  {
    seq(|bins|, i requires 0 <= i < |bins| => FilledBin(bins[i], elapsed, scenario, draws[i]))
  }

  /** After a fill update the bins keep their number and order, only their fill level
      changes, and every level is at most 100. */
  lemma FillUpdateShape(bins: seq<WasteBin>, elapsed: int, scenario: Scenario, draws: seq<real>)
    requires |draws| == |bins|
    ensures |FilledBins(bins, elapsed, scenario, draws)| == |bins|
    ensures forall i :: 0 <= i < |bins| ==>
      var r := FilledBins(bins, elapsed, scenario, draws)[i];
      r == bins[i].(fillLevel := r.fillLevel)
      && r.fillLevel == MinReal(MaxFill, bins[i].fillLevel + FillIncrement(bins[i], elapsed, scenario, draws[i]))
      && r.fillLevel <= MaxFill
  {
  }

  /** Every bin in range stays in range and does not lose fill, for any in-range draws. */
  lemma FillUpdateKeepsAllInRange(bins: seq<WasteBin>, elapsed: int, scenario: Scenario, draws: seq<real>)
    requires |draws| == |bins| && elapsed >= 0
    requires forall i :: 0 <= i < |bins| ==> 0.0 <= draws[i] < 1.0
    requires forall i :: 0 <= i < |bins| ==>
      bins[i].baseFillRate >= 0.0 && 0.0 <= bins[i].variabilityFactor <= 1.0
      && 0.0 <= bins[i].fillLevel <= MaxFill
    ensures forall i :: 0 <= i < |bins| ==>
      bins[i].fillLevel <= FilledBins(bins, elapsed, scenario, draws)[i].fillLevel <= MaxFill
  {
    forall i | 0 <= i < |bins|
      ensures bins[i].fillLevel <= FilledBins(bins, elapsed, scenario, draws)[i].fillLevel <= MaxFill
    {
      FillUpdateStaysInRange(bins[i], elapsed, scenario, draws[i]);
    }
  }

  // ---------------------------------------------------------------- lookup

  function FindBin(bins: seq<WasteBin>, id: string): (r: Option<nat>)
    ensures r.Some? ==> r.value < |bins| && bins[r.value].id == id
    ensures r.Some? ==> forall j :: 0 <= j < r.value ==> bins[j].id != id
    ensures r.None? <==> forall j :: 0 <= j < |bins| ==> bins[j].id != id
  {
    FirstIndex(bins, (b: WasteBin) => b.id == id)
  }

  // ---------------------------------------------------------------- emptying

  /** The first bin with a matching id gets fill 0 and collection time `now`;
      every other bin, and every bin when none matches, is untouched. */
  function EmptiedBins(bins: seq<WasteBin>, id: string, now: int): (r: seq<WasteBin>)
    ensures |r| == |bins|
    ensures FindBin(bins, id).None? ==> r == bins
    ensures FindBin(bins, id).Some? ==>
      var k := FindBin(bins, id).value;
      r[k] == bins[k].(fillLevel := 0.0, lastCollectionTime := now)
      && forall j :: 0 <= j < |bins| && j != k ==> r[j] == bins[j]
  {
    match FindBin(bins, id)
    case None => bins
    case Some(k) => bins[k := bins[k].(fillLevel := 0.0, lastCollectionTime := now)]
  }

  // ---------------------------------------------------------------- sensors

  /** The two Math.random() draws one bin consumes in a sensor update, in draw order. */
  datatype SensorDraw = SensorDraw(connectivityRoll: real, batteryRoll: real)

  /** Connectivity from the roll alone; the previous state plays no part. */
  function ConnectivityFromRoll(roll: real): (c: Connectivity)
    ensures c == Offline <==> roll < 0.005
    ensures c == Intermittent <==> 0.005 <= roll < 0.01
    ensures c == Online <==> 0.01 <= roll
  {
    if roll < 0.005 then Offline
    else if roll < 0.01 then Intermittent
    else Online
  }

  /** `Math.random() * 0.04 + 0.01`. */
  function BatteryDecrease(u: real): (d: real)
    ensures 0.0 <= u < 1.0 ==> 0.01 <= d < 0.05
  {
    u * 0.04 + 0.01
  }

  function SensedBin(bin: WasteBin, draw: SensorDraw, now: int): (r: WasteBin)
    ensures r == bin.(sensorData := r.sensorData)
    ensures r.sensorData.connectivity == ConnectivityFromRoll(draw.connectivityRoll)
    ensures r.sensorData.batteryLevel == MaxReal(0.0, bin.sensorData.batteryLevel - BatteryDecrease(draw.batteryRoll))
    ensures r.sensorData.lastTransmission == now
  {
    bin.(sensorData := bin.sensorData.(
      batteryLevel := MaxReal(0.0, bin.sensorData.batteryLevel - BatteryDecrease(draw.batteryRoll)),
      connectivity := ConnectivityFromRoll(draw.connectivityRoll),
      lastTransmission := now))
  }

  /** The battery never rises and never drops below 0; while it is at least 0.01 it drops
      by at least 0.01. */
  lemma BatteryNonIncreasing(bin: WasteBin, draw: SensorDraw, now: int)
    requires 0.0 <= draw.batteryRoll < 1.0
    requires bin.sensorData.batteryLevel >= 0.0
    ensures 0.0 <= SensedBin(bin, draw, now).sensorData.batteryLevel <= bin.sensorData.batteryLevel
    ensures bin.sensorData.batteryLevel >= 0.01 ==>
      SensedBin(bin, draw, now).sensorData.batteryLevel <= bin.sensorData.batteryLevel - 0.01
  {
  }

  /** Two bins that differ only in their previous connectivity get the same new connectivity. */
  lemma ConnectivityIsMemoryless(a: WasteBin, b: WasteBin, draw: SensorDraw, now: int)
    ensures SensedBin(a, draw, now).sensorData.connectivity == SensedBin(b, draw, now).sensorData.connectivity
  {
  }

  function SensedBins(bins: seq<WasteBin>, draws: seq<SensorDraw>, now: int): (r: seq<WasteBin>)
    requires |draws| == |bins|
    ensures |r| == |bins|
    ensures forall i :: 0 <= i < |bins| ==> r[i] == SensedBin(bins[i], draws[i], now)
  {
    seq(|bins|, i requires 0 <= i < |bins| => SensedBin(bins[i], draws[i], now))
  }

  // ---------------------------------------------------------------- removal

  /** `bins.filter(bin => bin.id !== id)`. */
  function WithoutBin(bins: seq<WasteBin>, id: string): (r: seq<WasteBin>)
    ensures |r| <= |bins|
    ensures forall b :: b in r <==> b in bins && b.id != id
  {
    if bins == [] then []
    else
      var last := bins[|bins| - 1];
      WithoutBin(bins[..|bins| - 1], id) + (if last.id != id then [last] else [])
  }

  /** Filtering distributes over concatenation, so the survivors keep their order. */
  lemma {:induction false} WithoutBinAppend(a: seq<WasteBin>, b: seq<WasteBin>, id: string)
    ensures WithoutBin(a + b, id) == WithoutBin(a, id) + WithoutBin(b, id)
    decreases |b|
  {
    if b == [] {
      assert a + b == a;
    } else {
      var last := b[|b| - 1];
      assert (a + b)[..|a + b| - 1] == a + b[..|b| - 1];
      WithoutBinAppend(a, b[..|b| - 1], id);
    }
  }

  /** Removing an id that no bin carries changes nothing. */
  lemma {:induction false} WithoutAbsentBin(bins: seq<WasteBin>, id: string)
    requires forall i :: 0 <= i < |bins| ==> bins[i].id != id
    ensures WithoutBin(bins, id) == bins
  {
    if bins != [] {
      var init := bins[..|bins| - 1];
      WithoutAbsentBin(init, id);
      assert bins == init + [bins[|bins| - 1]];
    }
  }

  /** Adding a bin with a fresh id and then removing that id restores the registry. */
  lemma AddThenRemove(bins: seq<WasteBin>, bin: WasteBin)
    requires forall i :: 0 <= i < |bins| ==> bins[i].id != bin.id
    ensures WithoutBin(bins + [bin], bin.id) == bins
  {
    assert (bins + [bin])[..|bins|] == bins;
    WithoutAbsentBin(bins, bin.id);
  }

  // ---------------------------------------------------------------- manual override

  /** `Math.max(0, Math.min(100, v))`. */
  function ClampFill(v: real): (r: real)
    ensures 0.0 <= r <= MaxFill
    ensures 0.0 <= v <= MaxFill ==> r == v
    ensures v > MaxFill ==> r == MaxFill
    ensures v < 0.0 ==> r == 0.0
  {
    MaxReal(0.0, MinReal(MaxFill, v))
  }

  function WithManualFill(bins: seq<WasteBin>, id: string, v: real): (r: seq<WasteBin>)
    ensures |r| == |bins|
    ensures FindBin(bins, id).None? ==> r == bins
    ensures FindBin(bins, id).Some? ==>
      var k := FindBin(bins, id).value;
      r[k] == bins[k].(fillLevel := ClampFill(v))
      && forall j :: 0 <= j < |bins| && j != k ==> r[j] == bins[j]
  {
    match FindBin(bins, id)
    case None => bins
    case Some(k) => bins[k := bins[k].(fillLevel := ClampFill(v))]
  }

  // ---------------------------------------------------------------- the slice

  class BinsStore {
    var bins: seq<WasteBin>

    /** `initial` stands for generateInitialBins(), whose contents are random. */
    constructor (initial: seq<WasteBin>)
      ensures bins == initial
    {
      bins := initial;
    }

    /** `draws[i]` is the Math.random() value the i-th bin consumes. */
    method UpdateBinFillLevels(time: int, scenario: Scenario, elapsed: int, draws: seq<real>)
      requires |draws| == |bins|
      modifies this
      ensures bins == FilledBins(old(bins), elapsed, scenario, draws)
    {
      bins := FilledBins(bins, elapsed, scenario, draws);
    }

    /** `now` stands for `new Date()`. */
    method EmptyBin(id: string, now: int)
      modifies this
      ensures bins == EmptiedBins(old(bins), id, now)
    {
      var binIndex := FindBin(bins, id);
      if binIndex.Some? {
        var k := binIndex.value;
        bins := bins[k := bins[k].(fillLevel := 0.0, lastCollectionTime := now)];
      }
    }

    method UpdateBinSensorData(draws: seq<SensorDraw>, now: int)
      requires |draws| == |bins|
      modifies this
      ensures bins == SensedBins(old(bins), draws, now)
    {
      bins := SensedBins(bins, draws, now);
    }

    /** Appends without looking for a bin with the same id. */
    method AddBin(bin: WasteBin)
      modifies this
      ensures bins == old(bins) + [bin]
    {
      bins := bins + [bin];
    }

    method RemoveBin(id: string)
      modifies this
      ensures bins == WithoutBin(old(bins), id)
    {
      bins := WithoutBin(bins, id);
    }

    method SetManualFillLevel(id: string, fillLevel: real)
      modifies this
      ensures bins == WithManualFill(old(bins), id, fillLevel)
    {
      var binIndex := FindBin(bins, id);
      if binIndex.Some? {
        var k := binIndex.value;
        bins := bins[k := bins[k].(fillLevel := ClampFill(fillLevel))];
      }
    }

    /** `regenerated` stands for a new generateInitialBins() result. */
    method ResetBins(regenerated: seq<WasteBin>)
      modifies this
      ensures bins == regenerated
    {
      bins := regenerated;
    }
  }
}
