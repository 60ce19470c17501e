/**
 * The daily energy-flow split of the flow diagram
 * (src/components/DailyFlowDiagram.tsx): one representative day's solar
 * output goes to the home first, then into the batteries, then to the
 * grid; the night demand is met from the batteries first, then from the
 * grid. The monthly figures shown beside the diagram are the daily grid
 * flows times 30, rounded.
 */
module DailyFlow {
  import opened Types
  import opened JsMath
  import opened Constants

  /** The quantities `dailyStats` returns, all in kWh per day. */
  datatype DailyStats = DailyStats(
    dayDemand: real,
    nightDemand: real,
    dailySolarGen: real,
    totalBatteryCap: real,
    solarToHome: real,
    gridToHomeDay: real,
    solarToBattery: real,
    solarToGrid: real,
    batteryToHome: real,
    gridToHomeNight: real,
    batteryStored: real)

  /** The share of stored energy the batteries give back at night. */
  const DISCHARGE_EFFICIENCY: real := 0.9

  /**
   * The day's part of a day's usage: `daytimePercent` per cent of it, not
   * negative for a usage and a share a user can enter.
   */
  function DayDemand(dailyTotalUsage: real, daytimePercent: real): (r: real)
    ensures dailyTotalUsage >= 0.0 && 0.0 <= daytimePercent <= 100.0 ==> r >= 0.0
  {
    dailyTotalUsage * (daytimePercent / 100.0)
  }

  /**
   * The night's part of a day's usage: what the daytime share leaves, not
   * negative for a usage and a share a user can enter.
   */
  function NightDemand(dailyTotalUsage: real, daytimePercent: real): (r: real)
    ensures DayDemand(dailyTotalUsage, daytimePercent) + r == dailyTotalUsage
    ensures dailyTotalUsage >= 0.0 && 0.0 <= daytimePercent <= 100.0 ==> r >= 0.0
  {
    dailyTotalUsage * (1.0 - daytimePercent / 100.0)
  }

  /**
   * `dailyStats`. Whatever the inputs, the day takes `daytimePercent` of
   * the daily usage; solar output is split without loss or double
   * counting, in the order home, then battery, then grid: the home's day
   * demand is met before anything is stored, and nothing is exported while
   * the batteries have room. At night the batteries give back all they can
   * (90 % of what was stored) before the grid supplies anything. The grid
   * makes up exactly what solar (by day) or the batteries (by night) leave
   * uncovered.
   */
  function ComputeDailyStats(usageKwh: Field<real>, daytimePercent: real, panelCount: int, batteryCount: int)
    : (r: DailyStats)
    ensures r.dayDemand + r.nightDemand == OrZero(usageKwh) / 30.0
    ensures r.dailySolarGen == panelCount as real * 0.62 * PEAK_SUN_HOURS
    ensures r.totalBatteryCap == batteryCount as real * BATTERY_CAPACITY_KWH
    ensures r.solarToHome + r.gridToHomeDay == r.dayDemand
    ensures r.solarToHome + r.solarToBattery + r.solarToGrid == r.dailySolarGen
    ensures r.solarToBattery + r.solarToGrid == Max(0.0, r.dailySolarGen - r.dayDemand)
    ensures r.solarToBattery <= r.totalBatteryCap
    ensures !(r.gridToHomeDay > 0.0 && r.solarToBattery + r.solarToGrid > 0.0)
    ensures r.solarToBattery + r.solarToGrid > 0.0 ==> r.solarToHome == r.dayDemand
    ensures r.solarToGrid >= 0.0
    ensures r.solarToGrid > 0.0 ==> r.solarToBattery == r.totalBatteryCap
    ensures r.batteryStored == r.solarToBattery
    ensures r.batteryToHome <= DISCHARGE_EFFICIENCY * r.solarToBattery
    ensures r.batteryToHome <= r.nightDemand
    ensures r.batteryToHome + r.gridToHomeNight == r.nightDemand
    ensures r.gridToHomeNight >= 0.0
    ensures r.gridToHomeNight > 0.0 ==> r.batteryToHome == DISCHARGE_EFFICIENCY * r.solarToBattery
    ensures r.dayDemand == DayDemand(OrZero(usageKwh) / 30.0, daytimePercent)
  {
    var effectiveUsage := OrZero(usageKwh);
    var dailyTotalUsage := effectiveUsage / 30.0;
    var dayDemand := DayDemand(dailyTotalUsage, daytimePercent);
    var nightDemand := NightDemand(dailyTotalUsage, daytimePercent);
    var dailySolarGen := panelCount as real * (PANEL_WATTAGE / 1000.0) * PEAK_SUN_HOURS;
    var totalBatteryCap := batteryCount as real * BATTERY_CAPACITY_KWH;
    var solarToHome := Min(dailySolarGen, dayDemand);
    var solarSurplus := Max(0.0, dailySolarGen - dayDemand);
    var gridToHomeDay := Max(0.0, dayDemand - dailySolarGen);
    var solarToBattery := Min(solarSurplus, totalBatteryCap);
    var solarToGrid := Max(0.0, solarSurplus - solarToBattery);
    var batteryStored := solarToBattery;
    var batteryUsable := batteryStored * DISCHARGE_EFFICIENCY;
    var batteryToHome := Min(batteryUsable, nightDemand);
    var gridToHomeNight := Max(0.0, nightDemand - batteryToHome);
    DailyStats(dayDemand, nightDemand, dailySolarGen, totalBatteryCap, solarToHome, gridToHomeDay,
               solarToBattery, solarToGrid, batteryToHome, gridToHomeNight, batteryStored)
  }

  /**
   * The routing order fixes every flow: the home takes what solar it can,
   * the batteries take what of the surplus fits, and at night the batteries
   * give back what the night needs up to 90 % of what they stored.
   */
  lemma RoutingIsGreedy(usageKwh: Field<real>, daytimePercent: real, panelCount: int, batteryCount: int)
    ensures var r := ComputeDailyStats(usageKwh, daytimePercent, panelCount, batteryCount);
      && r.solarToHome == Min(r.dailySolarGen, r.dayDemand)
      && r.solarToBattery == Min(Max(0.0, r.dailySolarGen - r.dayDemand), r.totalBatteryCap)
      && r.batteryToHome == Min(DISCHARGE_EFFICIENCY * r.solarToBattery, r.nightDemand)
  {
  }

  /** Inputs a user can enter: a non-negative usage, a daytime share in percent, non-negative counts. */
  predicate SaneInputs(usageKwh: Field<real>, daytimePercent: real, panelCount: int, batteryCount: int) {
    OrZero(usageKwh) >= 0.0 && 0.0 <= daytimePercent <= 100.0 && panelCount >= 0 && batteryCount >= 0
  }

  /** With sane inputs every demand and every flow is non-negative. */
  lemma FlowsNonNegative(usageKwh: Field<real>, daytimePercent: real, panelCount: int, batteryCount: int)
    requires SaneInputs(usageKwh, daytimePercent, panelCount, batteryCount)
    ensures var r := ComputeDailyStats(usageKwh, daytimePercent, panelCount, batteryCount);
      && r.dayDemand >= 0.0 && r.nightDemand >= 0.0
      && r.solarToHome >= 0.0 && r.gridToHomeDay >= 0.0
      && r.solarToBattery >= 0.0 && r.solarToGrid >= 0.0
      && r.batteryToHome >= 0.0 && r.gridToHomeNight >= 0.0
  {
    var r := ComputeDailyStats(usageKwh, daytimePercent, panelCount, batteryCount);
    assert r.dayDemand >= 0.0 && r.nightDemand >= 0.0;
    assert r.dailySolarGen >= 0.0 && r.totalBatteryCap >= 0.0;
  }

  /**
   * Without panels nothing is generated, stored or exported, and the grid
   * supplies the whole day and night demand.
   */
  lemma NoPanelsAllFromGrid(usageKwh: Field<real>, daytimePercent: real, batteryCount: int)
    requires SaneInputs(usageKwh, daytimePercent, 0, batteryCount)
    ensures var r := ComputeDailyStats(usageKwh, daytimePercent, 0, batteryCount);
      && r.dailySolarGen == 0.0 && r.solarToHome == 0.0 && r.solarToBattery == 0.0
      && r.solarToGrid == 0.0 && r.batteryToHome == 0.0
      && r.gridToHomeDay == r.dayDemand && r.gridToHomeNight == r.nightDemand
  {
    FlowsNonNegative(usageKwh, daytimePercent, 0, batteryCount);
  }

  /** Without batteries the whole solar surplus is exported. */
  lemma NoBatteriesExportSurplus(usageKwh: Field<real>, daytimePercent: real, panelCount: int)
    ensures var r := ComputeDailyStats(usageKwh, daytimePercent, panelCount, 0);
      && r.solarToBattery == 0.0 && r.batteryToHome <= 0.0
      && r.solarToGrid == Max(0.0, r.dailySolarGen - r.dayDemand)
  {
  }

  /** The monthly import shown: `Math.round((gridToHomeDay + gridToHomeNight) * 30)`. */
  function MonthlyImportShown(s: DailyStats): (r: int)
    ensures (s.gridToHomeDay + s.gridToHomeNight) * 30.0 - 0.5 < r as real <= (s.gridToHomeDay + s.gridToHomeNight) * 30.0 + 0.5
  {
    Round((s.gridToHomeDay + s.gridToHomeNight) * 30.0)
  }

  /** The monthly export shown: `Math.round(solarToGrid * 30)`. */
  function MonthlyExportShown(s: DailyStats): (r: int)
    ensures s.solarToGrid * 30.0 - 0.5 < r as real <= s.solarToGrid * 30.0 + 0.5
  {
    Round(s.solarToGrid * 30.0)
  }

  /**
   * Without panels the monthly import shown is the monthly usage rounded to
   * a whole kWh, and the monthly export shown is zero.
   */
  lemma NoPanelsImportIsUsage(usageKwh: Field<real>, daytimePercent: real, batteryCount: int)
    requires SaneInputs(usageKwh, daytimePercent, 0, batteryCount)
    ensures var r := ComputeDailyStats(usageKwh, daytimePercent, 0, batteryCount);
      MonthlyImportShown(r) == Round(OrZero(usageKwh)) && MonthlyExportShown(r) == 0
  {
    var r := ComputeDailyStats(usageKwh, daytimePercent, 0, batteryCount);
    NoPanelsAllFromGrid(usageKwh, daytimePercent, batteryCount);
    assert (r.gridToHomeDay + r.gridToHomeNight) * 30.0 == OrZero(usageKwh);
  }
}
