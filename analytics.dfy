/** The analytics dashboard's derived figures: the fill-level buckets of the doughnut
    chart, the headline counts, the mean fill level and the savings of the optimized
    route over the traditional one. */
module Analytics {
  import opened Common
  import opened Bins
  import opened Routes

  // ---------------------------------------------------------------- buckets

  predicate IsLow(level: real) { level < 50.0 }
  predicate IsMedium(level: real) { level >= 50.0 && level < 75.0 }
  predicate IsHigh(level: real) { level >= 75.0 && level < 90.0 }
  predicate IsCritical(level: real) { level >= 90.0 }

  /** `bins.filter(bin => p(bin.fillLevel)).length`. */
  function CountWhere(bins: seq<WasteBin>, p: real -> bool): (r: nat)
    ensures r <= |bins|
  {
    if bins == [] then 0
    else CountWhere(bins[..|bins| - 1], p) + (if p(bins[|bins| - 1].fillLevel) then 1 else 0)
  }

  datatype FillCounts = FillCounts(low: nat, medium: nat, high: nat, critical: nat)

  /** The four bucket counts, each its own filter as in the dashboard and the chart. */
  function BinsByFillLevel(bins: seq<WasteBin>): FillCounts {
    FillCounts(CountWhere(bins, IsLow), CountWhere(bins, IsMedium),
               CountWhere(bins, IsHigh), CountWhere(bins, IsCritical))
  }

  function Total(c: FillCounts): nat {
    c.low + c.medium + c.high + c.critical
  }

  /** The buckets partition the bins: their counts sum to the number of bins. */
  lemma {:induction false} BucketsSumToLength(bins: seq<WasteBin>)
    ensures Total(BinsByFillLevel(bins)) == |bins|
  {
    if bins != [] {
      BucketsSumToLength(bins[..|bins| - 1]);
    }
  }

  /** Adding one bin raises exactly the count of its bucket by one; a boundary value
      (50, 75, 90) belongs to the upper bucket. */
  lemma BucketsAppend(bins: seq<WasteBin>, b: WasteBin)
    ensures var before := BinsByFillLevel(bins);
      BinsByFillLevel(bins + [b]) ==
        if b.fillLevel < 50.0 then before.(low := before.low + 1)
        else if b.fillLevel < 75.0 then before.(medium := before.medium + 1)
        else if b.fillLevel < 90.0 then before.(high := before.high + 1)
        else before.(critical := before.critical + 1)
  {
    assert (bins + [b])[..|bins|] == bins;
  }

  /** The headline `criticalBins` counts levels strictly above 75: the high and critical
      buckets less the bins at exactly 75. */
  lemma {:induction false} CriticalHeadline(bins: seq<WasteBin>)
    ensures CountWhere(bins, level => level > 75.0)
            == CountWhere(bins, IsHigh) + CountWhere(bins, IsCritical) - CountWhere(bins, level => level == 75.0)
  {
    if bins != [] {
      CriticalHeadline(bins[..|bins| - 1]);
    }
  }

  // ---------------------------------------------------------------- mean fill

  function SumFill(bins: seq<WasteBin>): real {
    if bins == [] then 0.0 else SumFill(bins[..|bins| - 1]) + bins[|bins| - 1].fillLevel
  }

  /** `sum / bins.length`; with no bins JavaScript yields NaN, modelled as no value. */
  function AverageFillLevel(bins: seq<WasteBin>): (r: Option<real>)
    ensures r.Some? <==> |bins| > 0
  {
    if |bins| == 0 then None else Some(SumFill(bins) / |bins| as real)
  }

  lemma {:induction false} SumFillBounds(bins: seq<WasteBin>)
    requires forall i :: 0 <= i < |bins| ==> 0.0 <= bins[i].fillLevel <= MaxFill
    ensures 0.0 <= SumFill(bins) <= MaxFill * |bins| as real
  {
    if bins != [] {
      SumFillBounds(bins[..|bins| - 1]);
    }
  }

  /** With every level in [0, 100] the mean is in [0, 100]. */
  lemma AverageInRange(bins: seq<WasteBin>)
    requires |bins| > 0
    requires forall i :: 0 <= i < |bins| ==> 0.0 <= bins[i].fillLevel <= MaxFill
    ensures 0.0 <= AverageFillLevel(bins).value <= MaxFill
  {
    SumFillBounds(bins);
    var n := |bins| as real;
    var s := SumFill(bins);
    assert s / n <= MaxFill by {
      assert s <= MaxFill * n;
    }
  }

  lemma {:induction false} SumFillUniform(bins: seq<WasteBin>, level: real)
    requires forall i :: 0 <= i < |bins| ==> bins[i].fillLevel == level
    ensures SumFill(bins) == level * |bins| as real
  {
    if bins != [] {
      SumFillUniform(bins[..|bins| - 1], level);
    }
  }

  /** When all bins are equally full, the mean is that level. */
  lemma AverageOfUniformBins(bins: seq<WasteBin>, level: real)
    requires |bins| > 0
    requires forall i :: 0 <= i < |bins| ==> bins[i].fillLevel == level
    ensures AverageFillLevel(bins) == Some(level)
  {
    SumFillUniform(bins, level);
    var n := |bins| as real;
    assert SumFill(bins) == level * n;
    assert AverageFillLevel(bins) == Some(SumFill(bins) / n);
    assert (level * n) / n == level;
  }

  // ---------------------------------------------------------------- savings

  datatype Savings = Savings(distance: real, fuel: real, co2: real, time: real)

  /** All zeros unless both metrics are present; then traditional minus optimized, field by field. */
  function ComputeSavings(traditional: Option<RouteMetrics>, optimized: Option<RouteMetrics>): (s: Savings)
    ensures (traditional.None? || optimized.None?) ==> s == Savings(0.0, 0.0, 0.0, 0.0)
    ensures traditional.Some? && optimized.Some? ==>
      && s.distance == traditional.value.totalDistance - optimized.value.totalDistance
      && s.fuel == traditional.value.fuelConsumption - optimized.value.fuelConsumption
      && s.co2 == traditional.value.co2Emissions - optimized.value.co2Emissions
      && s.time == traditional.value.estimatedDuration - optimized.value.estimatedDuration
  {
    match (traditional, optimized)
    case (Some(t), Some(o)) =>
      Savings(t.totalDistance - o.totalDistance, t.fuelConsumption - o.fuelConsumption,
              t.co2Emissions - o.co2Emissions, t.estimatedDuration - o.estimatedDuration)
    case _ => Savings(0.0, 0.0, 0.0, 0.0)
  }

  /** For metrics computed by the route formulas, fuel and CO2 savings are fixed multiples
      of the distance saving, and the time saving is the driving time saved plus two
      minutes per bin collected less; a shorter optimized route saves fuel and CO2. */
  lemma SavingsFollowDistance(t: RouteMetrics, tp: seq<RoutePoint>, o: RouteMetrics, op: seq<RoutePoint>,
                              sqrt: real -> real)
    requires IsMetricsOf(t, tp, sqrt) && IsMetricsOf(o, op, sqrt)
    ensures var s := ComputeSavings(Some(t), Some(o));
      && s.fuel == FuelPerKm * s.distance
      && s.co2 == Co2PerLitre * FuelPerKm * s.distance
      && s.time == s.distance / AverageSpeedKmh * 60.0
                   + ((t.binsCollected - o.binsCollected) * MinutesPerBin) as real
      && (s.distance >= 0.0 ==> s.fuel >= 0.0 && s.co2 >= 0.0)
  {
  }

  // ---------------------------------------------------------------- the dashboard's selector

  /** A JavaScript value as far as the dashboard's reads of the routes state go. */
  datatype JsValue = Undefined | MetricsValue(metrics: Option<RouteMetrics>) | OtherValue

  /** `state.routes[name]`: the routes state has exactly the fields routes, activeRouteId,
      traditionalMetrics and optimizedMetrics. */
  function RoutesStateProperty(name: string, traditional: Option<RouteMetrics>,
                               optimized: Option<RouteMetrics>): (v: JsValue)
    ensures v.Undefined? <==> name !in {"routes", "activeRouteId", "traditionalMetrics", "optimizedMetrics"}
  {
    if name == "traditionalMetrics" then MetricsValue(traditional)
    else if name == "optimizedMetrics" then MetricsValue(optimized)
    else if name == "routes" || name == "activeRouteId" then OtherValue
    else Undefined
  }

  datatype SavingsOutcome = Computed(savings: Savings) | ThrowsTypeError

  /** The savings block as written: it reads `.traditionalMetrics` off
      `state.routes.routeComparison`, which throws on undefined; on any defined value that
      is not a comparison object the read yields undefined and the guard fails. */
  function SavingsAsWritten(traditional: Option<RouteMetrics>, optimized: Option<RouteMetrics>): SavingsOutcome {
    match RoutesStateProperty("routeComparison", traditional, optimized)
    case Undefined => ThrowsTypeError
    case _ => Computed(Savings(0.0, 0.0, 0.0, 0.0))
  }

  /** As written, the dashboard throws whatever the routes state holds, even right after
      both routes were generated and both metrics are present. */
  lemma SavingsAsWrittenAlwaysThrows(traditional: Option<RouteMetrics>, optimized: Option<RouteMetrics>)
    ensures SavingsAsWritten(traditional, optimized) == ThrowsTypeError
  {
    assert "routeComparison" !in {"routes", "activeRouteId", "traditionalMetrics", "optimizedMetrics"} by {
      assert "routeComparison"[5] != "routes"[5];
      assert |"routeComparison"| != |"activeRouteId"|;
      assert |"routeComparison"| != |"traditionalMetrics"|;
      assert |"routeComparison"| != |"optimizedMetrics"|;
    }
  }

  /** Corrected, the dashboard reads the two metric fields the state does have, and after
      route generation the savings are the componentwise differences. */
  function DashboardSavings(traditional: Option<RouteMetrics>, optimized: Option<RouteMetrics>): (r: SavingsOutcome)
    ensures r == Computed(ComputeSavings(traditional, optimized))
  {
    Computed(ComputeSavings(RoutesStateProperty("traditionalMetrics", traditional, optimized).metrics,
                            RoutesStateProperty("optimizedMetrics", traditional, optimized).metrics))
  }

  lemma DashboardSavingsAreDifferences(t: RouteMetrics, o: RouteMetrics)
    ensures DashboardSavings(Some(t), Some(o)) == Computed(Savings(
      t.totalDistance - o.totalDistance, t.fuelConsumption - o.fuelConsumption,
      t.co2Emissions - o.co2Emissions, t.estimatedDuration - o.estimatedDuration))
  {
  }
}
