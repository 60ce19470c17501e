/**
 * The savings-graph page (components/SavingsGraphGenerator.tsx): one
 * series per battery count, from none up to the number of batteries that
 * covers the night load (at most 10), each sweeping 6 to 54 panels and
 * marking the first panel count at which the system exports more than it
 * imports. Its bill/usage form is the one of the `BillSync` module, with
 * the components' fix button (`BillSync.BillUsageSync.FixBillAmountKeepUsage`).
 */
module SavingsGraph {
  import opened Types
  import opened JsMath
  import opened Constants
  import App

  /** The fewest panels the graph shows. */
  const GRAPH_MIN_PANELS: int := 6

  /** The most panels the graph shows. */
  const GRAPH_MAX_PANELS: int := 54

  /** The most batteries the graph shows a series for. */
  const GRAPH_MAX_BATTERIES: int := 10

  /** One point of a series; `exported` and `imported` stand for `export` and `import`. */
  datatype GraphPoint = GraphPoint(
    panels: int,
    savings: real,
    bill: real,
    exported: real,
    imported: real,
    savedPercentage: real)

  /** One line of the chart: a battery count, its points, and where export first beats import. */
  datatype Series = Series(batteryCount: int, data: seq<GraphPoint>, crossoverPanel: Option<int>)

  /** The average night-time usage per day. */
  function DailyNightUsage(usage: real, daytimePercent: real): real {
    (usage / 30.0) * (1.0 - daytimePercent / 100.0)
  }

  /**
   * The last battery count the graph shows: the fewest batteries whose
   * capacity covers a day's night usage, but no more than 10.
   */
  function BatteryLimit(usage: real, daytimePercent: real): (r: int)
    ensures r <= GRAPH_MAX_BATTERIES
    ensures var night := DailyNightUsage(usage, daytimePercent);
      r < GRAPH_MAX_BATTERIES ==>
        (r - 1) as real * BATTERY_CAPACITY_KWH < night <= r as real * BATTERY_CAPACITY_KWH
    ensures var night := DailyNightUsage(usage, daytimePercent);
      r == GRAPH_MAX_BATTERIES ==> night > 9.0 * BATTERY_CAPACITY_KWH
  {
    var night := DailyNightUsage(usage, daytimePercent);
    var needed := Ceil(night / BATTERY_CAPACITY_KWH);
    assert night / BATTERY_CAPACITY_KWH * BATTERY_CAPACITY_KWH == night;
    if needed <= GRAPH_MAX_BATTERIES then needed else GRAPH_MAX_BATTERIES
  }

  /** The number of series: battery counts 0 to the limit, none when the limit is negative. */
  function SeriesCount(usage: real, daytimePercent: real): (r: nat)
    ensures r <= GRAPH_MAX_BATTERIES + 1
    ensures BatteryLimit(usage, daytimePercent) >= 0 ==> r - 1 == BatteryLimit(usage, daytimePercent)
    ensures BatteryLimit(usage, daytimePercent) < 0 ==> r == 0
  {
    var limit := BatteryLimit(usage, daytimePercent);
    if limit < 0 then 0 else limit + 1
  }

  /**
   * The point for `p` panels and `b` batteries: the simulation's savings,
   * new bill, export (0 when the bill has none) and grid import, and the
   * savings as a share of the original bill.
   */
  function PointFor(e: Engine, usage: real, daytimePercent: real, p: int, b: int): (r: GraphPoint)
    ensures var sim := e.simulateSolar(usage, daytimePercent, p, b);
      && r.panels == p
      && r.savings == sim.monthlySavings
      && r.bill == sim.newBill.finalTotal
      && r.exported == ExportUnitsOrZero(sim.newBill)
      && r.imported == sim.gridImport
      && (sim.originalBill.finalTotal <= 0.0 ==> r.savedPercentage == 0.0)
      && (sim.originalBill.finalTotal > 0.0 ==>
            r.savedPercentage * sim.originalBill.finalTotal == 100.0 * sim.monthlySavings)
  {
    var sim := e.simulateSolar(usage, daytimePercent, p, b);
    GraphPoint(p, sim.monthlySavings, sim.newBill.finalTotal, ExportUnitsOrZero(sim.newBill),
      sim.gridImport, App.SavingsPercent(sim))
  }

  predicate ExportsMore(pt: GraphPoint) {
    pt.exported > pt.imported
  }

  /** The panel count of the first point that exports more than it imports, if any. */
  function FirstExporting(points: seq<GraphPoint>): (r: Option<int>)
    ensures r.None? <==> forall i :: 0 <= i < |points| ==> !ExportsMore(points[i])
    ensures r.Some? ==> exists i ::
      && 0 <= i < |points|
      && points[i].panels == r.value
      && ExportsMore(points[i])
      && forall j :: 0 <= j < i ==> !ExportsMore(points[j])
    decreases |points|
  {
    if points == [] then None
    else if ExportsMore(points[0]) then Some(points[0].panels)
    else
      var rest := FirstExporting(points[1..]);
      assert forall i :: 1 <= i < |points| ==> points[i] == points[1..][i - 1];
      rest
  }

  /** Appending a point changes the first exporter only when there was none. */
  lemma {:induction false} FirstExportingSnoc(points: seq<GraphPoint>, pt: GraphPoint)
    ensures FirstExporting(points + [pt]) ==
      if FirstExporting(points).Some? then FirstExporting(points)
      else if ExportsMore(pt) then Some(pt.panels)
      else None
    decreases |points|
  {
    if points == [] {
      assert points + [pt] == [pt];
      assert [pt][1..] == [];
    } else {
      assert (points + [pt])[0] == points[0];
      assert (points + [pt])[1..] == points[1..] + [pt];
      FirstExportingSnoc(points[1..], pt);
    }
  }

  /** The 49 points of the series for `b` batteries, one per panel count from 6 to 54. */
  function SeriesPoints(e: Engine, usage: real, daytimePercent: real, b: int): (r: seq<GraphPoint>)
    ensures |r| == GRAPH_MAX_PANELS - GRAPH_MIN_PANELS + 1
  {
    seq(GRAPH_MAX_PANELS - GRAPH_MIN_PANELS + 1, i => PointFor(e, usage, daytimePercent, GRAPH_MIN_PANELS + i, b))
  }

  /** The series for `b` batteries. */
  function SeriesFor(e: Engine, usage: real, daytimePercent: real, b: int): (r: Series)
    ensures r.batteryCount == b && |r.data| == 49
  {
    var points := SeriesPoints(e, usage, daytimePercent, b);
    Series(b, points, FirstExporting(points))
  }

  /** The simulation for `p` panels and `b` batteries exports more than it imports. */
  predicate Exports(e: Engine, usage: real, daytimePercent: real, p: int, b: int) {
    var sim := e.simulateSolar(usage, daytimePercent, p, b);
    ExportUnitsOrZero(sim.newBill) > sim.gridImport
  }

  /**
   * A series has 49 points with the panel counts 6 to 54 in order, and its
   * crossover is the smallest panel count in that range at which the system
   * exports more than it imports, or none when no panel count does.
   */
  lemma SeriesShape(e: Engine, usage: real, daytimePercent: real, b: int)
    ensures var s := SeriesFor(e, usage, daytimePercent, b);
      && (forall i :: 0 <= i < |s.data| ==> s.data[i].panels == GRAPH_MIN_PANELS + i)
      && (s.crossoverPanel.None? <==>
            forall p :: GRAPH_MIN_PANELS <= p <= GRAPH_MAX_PANELS ==> !Exports(e, usage, daytimePercent, p, b))
      && (s.crossoverPanel.Some? ==>
            var c := s.crossoverPanel.value;
            && GRAPH_MIN_PANELS <= c <= GRAPH_MAX_PANELS
            && Exports(e, usage, daytimePercent, c, b)
            && forall q :: GRAPH_MIN_PANELS <= q < c ==> !Exports(e, usage, daytimePercent, q, b))
  {
    var s := SeriesFor(e, usage, daytimePercent, b);
    var pts := s.data;
    forall i | 0 <= i < |pts|
      ensures pts[i].panels == GRAPH_MIN_PANELS + i
      ensures ExportsMore(pts[i]) <==> Exports(e, usage, daytimePercent, GRAPH_MIN_PANELS + i, b)
    {
      assert pts[i] == PointFor(e, usage, daytimePercent, GRAPH_MIN_PANELS + i, b);
    }
    if s.crossoverPanel.None? {
      forall p | GRAPH_MIN_PANELS <= p <= GRAPH_MAX_PANELS
        ensures !Exports(e, usage, daytimePercent, p, b)
      {
        assert !ExportsMore(pts[p - GRAPH_MIN_PANELS]);
      }
    } else {
      var i :| 0 <= i < |pts| && pts[i].panels == s.crossoverPanel.value && ExportsMore(pts[i])
        && forall j :: 0 <= j < i ==> !ExportsMore(pts[j]);
      forall q | GRAPH_MIN_PANELS <= q < s.crossoverPanel.value
        ensures !Exports(e, usage, daytimePercent, q, b)
      {
        assert !ExportsMore(pts[q - GRAPH_MIN_PANELS]);
      }
    }
  }

  /**
   * `graphsData`: an empty usage field counts as 0 kWh; the outer loop
   * runs over the battery counts, the inner loop over the panel counts,
   * noting the first panel count whose export beats its import.
   */
  method GraphsData(e: Engine, usageKwh: Field<real>, daytimePercent: real) returns (allSeries: seq<Series>)
    ensures |allSeries| == SeriesCount(OrZero(usageKwh), daytimePercent)
    ensures forall b :: 0 <= b < |allSeries| ==>
      allSeries[b] == SeriesFor(e, OrZero(usageKwh), daytimePercent, b)
  {
    var effectiveUsage := if usageKwh.Num? then usageKwh.value else 0.0;
    var batteryLimit := BatteryLimit(effectiveUsage, daytimePercent);

    allSeries := [];
    var b := 0;
    while b <= batteryLimit
      invariant 0 <= b <= SeriesCount(effectiveUsage, daytimePercent)
      invariant |allSeries| == b
      invariant forall k :: 0 <= k < b ==> allSeries[k] == SeriesFor(e, effectiveUsage, daytimePercent, k)
    {
      var series := BuildSeries(e, effectiveUsage, daytimePercent, b);
      allSeries := allSeries + [series];
      b := b + 1;
    }
  }

  /**
   * The inner loop of `graphsData`: the points for 6 to 54 panels with `b`
   * batteries, and the first panel count whose export beats its import.
   */
  method BuildSeries(e: Engine, effectiveUsage: real, daytimePercent: real, b: int) returns (series: Series)
    ensures series == SeriesFor(e, effectiveUsage, daytimePercent, b)
  {
    var dataPoints: seq<GraphPoint> := [];
    var crossoverPanel: Option<int> := None;
    var p := GRAPH_MIN_PANELS;
    while p <= GRAPH_MAX_PANELS
      invariant GRAPH_MIN_PANELS <= p <= GRAPH_MAX_PANELS + 1
      invariant |dataPoints| == p - GRAPH_MIN_PANELS
      invariant forall i :: 0 <= i < |dataPoints| ==>
        dataPoints[i] == PointFor(e, effectiveUsage, daytimePercent, GRAPH_MIN_PANELS + i, b)
      invariant crossoverPanel == FirstExporting(dataPoints)
    {
      var point := PointFor(e, effectiveUsage, daytimePercent, p, b);
      FirstExportingSnoc(dataPoints, point);
      if crossoverPanel.None? && point.exported > point.imported {
        crossoverPanel := Some(p);
      }
      dataPoints := dataPoints + [point];
      p := p + 1;
    }
    assert dataPoints == SeriesPoints(e, effectiveUsage, daytimePercent, b);
    series := Series(b, dataPoints, crossoverPanel);
  }
}
