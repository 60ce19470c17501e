/**
 * The plan optimiser of the recommender page
 * (src/components/PlanRecommender.tsx): one scenario per (panels,
 * batteries) cell, with the three-phase surcharge and the payback and
 * percentage guards; a grid search over every cell the roof, the phase and
 * the price table allow, keeping only cells that do not export more than
 * they import; and the four picks shown on the cards.
 */
module PlanRecommender {
  import opened Types
  import opened JsMath
  import opened Constants
  import opened Text
  import BillSync

  datatype Phase = Single | Three

  /** The form fields the optimiser reads. */
  datatype PlannerInputs = PlannerInputs(
    usageKwh: Field<real>,
    billAmount: Field<real>,
    gapWarning: bool,
    phase: Phase,
    daytimePercent: real,
    roofMaxPanels: Field<int>)

  /** The four cards; each is empty when no cell qualifies. */
  datatype Recommendations = Recommendations(
    lowestBreakeven: Option<RecommendationResult>,
    matchKwh: Option<RecommendationResult>,
    highOffset: Option<RecommendationResult>,
    maxSaving: Option<RecommendationResult>)

  /** The payback shown when the system saves nothing. */
  const NO_PAYBACK: real := 999.0

  /** The most batteries the search tries. */
  const MAX_BATTERIES: int := 20

  /** The roof limit taken when the roof field is empty. */
  const NO_ROOF_LIMIT: int := 999

  /** The bill percentages are taken of: the upper gap bound while the warning shows. */
  function EffectiveBill(e: Engine, inp: PlannerInputs): (r: real)
    ensures inp.gapWarning ==> r == BillSync.GapUpper(e)
    ensures !inp.gapWarning ==> r == OrZero(inp.billAmount)
  {
    if inp.gapWarning then BillSync.GapUpper(e) else OrZero(inp.billAmount)
  }

  /**
   * The extra price of a three-phase installation on a tier that the price
   * table equips with a single-phase inverter.
   */
  function ThreePhaseSurcharge(phase: Phase, panels: int): (r: real)
    ensures phase == Three && 6 <= panels <= 14 ==> r == 3350.0
    ensures phase == Three && 15 <= panels <= 22 ==> r == 1600.0
    ensures !(phase == Three && 6 <= panels <= 22) ==> r == 0.0
  {
    if phase == Three && 6 <= panels <= 14 then 3350.0
    else if phase == Three && 15 <= panels <= 22 then 1600.0
    else 0.0
  }

  /**
   * Across the whole price table, three phase costs extra exactly on the
   * tiers whose listed inverter is not a three-phase one.
   */
  lemma SurchargeExactlyOnSinglePhaseTiers(panels: int)
    requires MIN_TIER_PANELS <= panels <= MAX_TIER_PANELS
    ensures 0 <= panels - MIN_TIER_PANELS < |SYSTEM_PRICING|
    ensures ThreePhaseSurcharge(Three, panels) > 0.0
      <==> !IsThreePhase(SYSTEM_PRICING[panels - MIN_TIER_PANELS].inverterSize)
  {
    TierAt(panels);
    InverterPhase(panels);
  }

  /**
   * `calculateScenario`. Empty exactly when the price lookup fails;
   * otherwise the prices carry the surcharge, the payback is the price over
   * the annual savings (999 without savings), the saved share is of the
   * effective bill (0 without one), and the energy figures are the
   * simulation's for the same cell.
   */
  function CalculateScenario(e: Engine, inp: PlannerInputs, p: int, b: int): (r: Option<RecommendationResult>)
    ensures r.None? <==> e.calculateSystemCost(p, b).None?
    ensures r.Some? ==>
      var sim := e.simulateSolar(OrZero(inp.usageKwh), inp.daytimePercent, p, b);
      var cost := e.calculateSystemCost(p, b).value;
      var x := r.value;
      var surcharge := ThreePhaseSurcharge(inp.phase, p);
      && x.panels == p && x.batteries == b
      && x.systemCostCash - cost.cash == surcharge
      && x.systemCostCC - cost.cc == surcharge
      && x.inverterSize == (if surcharge > 0.0 then INVERTER_10KW_THREE else cost.tier.inverterSize)
      && x.monthlySavings == sim.monthlySavings
      && x.newBillAmount == sim.newBill.finalTotal
      && x.generation == sim.solarGenerationMonthly
      && x.exported == ExportUnitsOrZero(sim.newBill) && x.newExportKwh == x.exported
      && x.newImportKwh == sim.gridImport
  {
    var sim := e.simulateSolar(OrZero(inp.usageKwh), inp.daytimePercent, p, b);
    match e.calculateSystemCost(p, b)
    case None => None
    case Some(costs) =>
      var surcharge := ThreePhaseSurcharge(inp.phase, p);
      var adjustedCash := costs.cash + surcharge;
      var adjustedCC := costs.cc + surcharge;
      var inverterLabel := if surcharge > 0.0 then INVERTER_10KW_THREE else costs.tier.inverterSize;
      var annualSavings := sim.monthlySavings * 12.0;
      var paybackCash := if annualSavings > 0.0 then adjustedCash / annualSavings else NO_PAYBACK;
      var paybackCC := if annualSavings > 0.0 then adjustedCC / annualSavings else NO_PAYBACK;
      var effectiveBill := EffectiveBill(e, inp);
      var savedPct := if effectiveBill > 0.0 then (sim.monthlySavings / effectiveBill) * 100.0 else 0.0;
      var solarSurplus := sim.solarGenerationMonthly - sim.demandDay;
      var capacityMonthly := b as real * BATTERY_CAPACITY_KWH * 30.0;
      var batUtil := if capacityMonthly > 0.0 then solarSurplus / capacityMonthly else 0.0;
      var roi := if adjustedCash != 0.0 then (annualSavings / adjustedCash) * 100.0 else 0.0;
      var exported := ExportUnitsOrZero(sim.newBill);
      Some(RecommendationResult(
        p, b, adjustedCash, adjustedCC, sim.monthlySavings, savedPct, sim.newBill.finalTotal,
        paybackCash, paybackCC, roi, sim.solarGenerationMonthly, exported, inverterLabel,
        sim.gridImport, exported, batUtil))
  }

  /**
   * The ratios of a scenario: the payback years times the annual savings
   * give back the price (or the payback is 999 without savings), the saved
   * share is the savings as a percentage of the effective bill (or 0), the
   * battery utilisation is the daytime surplus over the monthly battery
   * capacity (or 0 without batteries), and the ROI is the annual savings as
   * a percentage of the cash price.
   */
  lemma ScenarioRatios(e: Engine, inp: PlannerInputs, p: int, b: int)
    requires CalculateScenario(e, inp, p, b).Some?
    ensures var sim := e.simulateSolar(OrZero(inp.usageKwh), inp.daytimePercent, p, b);
      var x := CalculateScenario(e, inp, p, b).value;
      var annual := 12.0 * sim.monthlySavings;
      var bill := EffectiveBill(e, inp);
      && (annual > 0.0 ==> x.paybackYearsCash * annual == x.systemCostCash)
      && (annual > 0.0 ==> x.paybackYearsCC * annual == x.systemCostCC)
      && (annual <= 0.0 ==> x.paybackYearsCash == NO_PAYBACK && x.paybackYearsCC == NO_PAYBACK)
      && (bill > 0.0 ==> x.savedPercentage * bill == 100.0 * sim.monthlySavings)
      && (bill <= 0.0 ==> x.savedPercentage == 0.0)
      && (b > 0 ==> x.batteryUtilization * (b as real * BATTERY_CAPACITY_KWH * 30.0)
                    == sim.solarGenerationMonthly - sim.demandDay)
      && (b <= 0 ==> x.batteryUtilization == 0.0)
      && (x.systemCostCash != 0.0 ==> x.roiPercentage * x.systemCostCash == 100.0 * annual)
  {
    var sim := e.simulateSolar(OrZero(inp.usageKwh), inp.daytimePercent, p, b);
    var x := CalculateScenario(e, inp, p, b).value;
    var cap := b as real * BATTERY_CAPACITY_KWH * 30.0;
    if b > 0 {
      assert b as real >= 1.0;
      assert cap > 0.0;
    } else {
      assert cap <= 0.0;
    }
  }

  /**
   * With savings, a cash payment pays back no later than the credit-card
   * one whenever the cash price is the lower; and a larger saving never
   * lengthens the payback of the same price.
   */
  lemma PaybackCashNotLater(e: Engine, inp: PlannerInputs, p: int, b: int)
    requires CalculateScenario(e, inp, p, b).Some?
    requires e.simulateSolar(OrZero(inp.usageKwh), inp.daytimePercent, p, b).monthlySavings > 0.0
    requires e.calculateSystemCost(p, b).value.cash <= e.calculateSystemCost(p, b).value.cc
    ensures CalculateScenario(e, inp, p, b).value.paybackYearsCash <= CalculateScenario(e, inp, p, b).value.paybackYearsCC
  {
    var sim := e.simulateSolar(OrZero(inp.usageKwh), inp.daytimePercent, p, b);
    var x := CalculateScenario(e, inp, p, b).value;
    var annual := 12.0 * sim.monthlySavings;
    ScenarioRatios(e, inp, p, b);
    assert x.systemCostCash <= x.systemCostCC;
    assert x.paybackYearsCash * annual <= x.paybackYearsCC * annual;
  }

  /**
   * In three-phase mode, whenever the price lookup returns the table's own
   * tier, the inverter on the card is a three-phase one.
   */
  lemma ThreePhaseCardsShowThreePhaseInverters(e: Engine, inp: PlannerInputs, p: int, b: int)
    requires inp.phase == Three
    requires MIN_TIER_PANELS <= p <= MAX_TIER_PANELS
    requires e.calculateSystemCost(p, b).Some?
    requires e.calculateSystemCost(p, b).value.tier == SYSTEM_PRICING[p - MIN_TIER_PANELS]
    ensures IsThreePhase(CalculateScenario(e, inp, p, b).value.inverterSize)
  {
    SurchargeExactlyOnSinglePhaseTiers(p);
    InverterPhase(23);
  }

  /** The cell survives the feasibility filter: it has a price and exports no more than it imports. */
  predicate Admitted(e: Engine, inp: PlannerInputs, x: RecommendationResult) {
    && CalculateScenario(e, inp, x.panels, x.batteries) == Some(x)
    && !(x.exported > e.simulateSolar(OrZero(inp.usageKwh), inp.daytimePercent, x.panels, x.batteries).gridImport)
  }

  /** The scenario of a cell if the search keeps it. */
  function Kept(e: Engine, inp: PlannerInputs, p: int, b: int): (r: Option<RecommendationResult>)
    ensures r.Some? ==> Admitted(e, inp, r.value) && r.value.panels == p && r.value.batteries == b
  {
    var res := CalculateScenario(e, inp, p, b);
    if res.None? then None
    else
      var sim := e.simulateSolar(OrZero(inp.usageKwh), inp.daytimePercent, p, b);
      if res.value.exported > sim.gridImport then None else res
  }

  /** What the search keeps of each (panels, batteries) cell. */
  type CellResults = (int, int) -> Option<RecommendationResult>

  /** The search's view of the optimiser: `Kept` for every cell. */
  function KeptCells(e: Engine, inp: PlannerInputs): (cell: CellResults)
    ensures forall p, b :: cell(p, b) == Kept(e, inp, p, b)
  {
    (p, b) => Kept(e, inp, p, b)
  }

  /** Each cell's result, when there is one, is about that cell. */
  ghost predicate AtOwnCell(cell: CellResults) {
    forall p, b :: cell(p, b).Some? ==> cell(p, b).value.panels == p && cell(p, b).value.batteries == b
  }

  function OptionToSeq(o: Option<RecommendationResult>): seq<RecommendationResult> {
    if o.Some? then [o.value] else []
  }

  /** The kept results of row `p` for battery counts `b` to 20, in order. */
  function RowCells(cell: CellResults, p: int, b: int): seq<RecommendationResult>
    decreases MAX_BATTERIES + 1 - b
  {
    if b > MAX_BATTERIES then [] else OptionToSeq(cell(p, b)) + RowCells(cell, p, b + 1)
  }

  /** The kept results of rows `p` to `maxP`, row by row. */
  function GridCells(cell: CellResults, p: int, maxP: int): seq<RecommendationResult>
    decreases maxP + 1 - p
  {
    if p > maxP then [] else RowCells(cell, p, 0) + GridCells(cell, p + 1, maxP)
  }

  /**
   * The last panel count the search tries: the least of the roof limit (999
   * when empty), 22 in single phase (56 in three), and the largest tier.
   */
  function MaxPanels(inp: PlannerInputs): (r: int)
    ensures r <= MAX_TIER_PANELS
    ensures inp.phase == Single ==> r <= 22
    ensures inp.roofMaxPanels.Num? ==> r <= inp.roofMaxPanels.value
    ensures || r == MAX_TIER_PANELS
            || (inp.phase == Single && r == 22)
            || (inp.roofMaxPanels.Num? && r == inp.roofMaxPanels.value)
  {
    var userLimit := if inp.roofMaxPanels.Blank? then NO_ROOF_LIMIT else inp.roofMaxPanels.value;
    var phaseLimit := if inp.phase == Single then 22 else 56;
    var m := if userLimit <= phaseLimit then userLimit else phaseLimit;
    if m <= MAX_TIER_PANELS then m else MAX_TIER_PANELS
  }

  /** Cell `x` comes before cell `y` in the search: fewer panels, or as many and fewer batteries. */
  predicate Before(x: RecommendationResult, y: RecommendationResult) {
    x.panels < y.panels || (x.panels == y.panels && x.batteries < y.batteries)
  }

  predicate InSearchOrder(cells: seq<RecommendationResult>) {
    forall i, j :: 0 <= i < j < |cells| ==> Before(cells[i], cells[j])
  }

  /** Two runs in search order, the first wholly before the second, make one. */
  lemma ConcatInSearchOrder(xs: seq<RecommendationResult>, ys: seq<RecommendationResult>)
    requires InSearchOrder(xs) && InSearchOrder(ys)
    requires forall x, y :: x in xs && y in ys ==> Before(x, y)
    ensures InSearchOrder(xs + ys)
  {
    forall i, j | 0 <= i < j < |xs + ys|
      ensures Before((xs + ys)[i], (xs + ys)[j])
    {
      if i >= |xs| {
        assert (xs + ys)[i] == ys[i - |xs|];
        assert (xs + ys)[j] == ys[j - |xs|];
      } else if j < |xs| {
        assert (xs + ys)[i] == xs[i];
        assert (xs + ys)[j] == xs[j];
      } else {
        assert (xs + ys)[i] == xs[i] && xs[i] in xs;
        assert (xs + ys)[j] == ys[j - |xs|] && ys[j - |xs|] in ys;
      }
    }
  }

  lemma {:induction false} RowCellsPositions(cell: CellResults, p: int, b: int)
    requires AtOwnCell(cell)
    ensures forall x :: x in RowCells(cell, p, b) ==>
      x.panels == p && b <= x.batteries <= MAX_BATTERIES && cell(x.panels, x.batteries) == Some(x)
    decreases MAX_BATTERIES + 1 - b
  {
    if b <= MAX_BATTERIES {
      RowCellsPositions(cell, p, b + 1);
    }
  }

  lemma {:induction false} RowCellsOrdered(cell: CellResults, p: int, b: int)
    requires AtOwnCell(cell)
    ensures InSearchOrder(RowCells(cell, p, b))
    decreases MAX_BATTERIES + 1 - b
  {
    if b <= MAX_BATTERIES {
      RowCellsOrdered(cell, p, b + 1);
      RowCellsPositions(cell, p, b + 1);
      ConcatInSearchOrder(OptionToSeq(cell(p, b)), RowCells(cell, p, b + 1));
    }
  }

  lemma {:induction false} RowCellsComplete(cell: CellResults, p: int, b: int)
    ensures forall b' :: b <= b' <= MAX_BATTERIES && cell(p, b').Some? ==> cell(p, b').value in RowCells(cell, p, b)
    decreases MAX_BATTERIES + 1 - b
  {
    if b <= MAX_BATTERIES {
      RowCellsComplete(cell, p, b + 1);
    }
  }

  lemma {:induction false} GridCellsPositions(cell: CellResults, p: int, maxP: int)
    requires AtOwnCell(cell)
    ensures forall x :: x in GridCells(cell, p, maxP) ==>
      p <= x.panels <= maxP && 0 <= x.batteries <= MAX_BATTERIES && cell(x.panels, x.batteries) == Some(x)
    decreases maxP + 1 - p
  {
    if p <= maxP {
      GridCellsPositions(cell, p + 1, maxP);
      RowCellsPositions(cell, p, 0);
    }
  }

  lemma {:induction false} GridCellsOrdered(cell: CellResults, p: int, maxP: int)
    requires AtOwnCell(cell)
    ensures InSearchOrder(GridCells(cell, p, maxP))
    decreases maxP + 1 - p
  {
    if p <= maxP {
      GridCellsOrdered(cell, p + 1, maxP);
      GridCellsPositions(cell, p + 1, maxP);
      RowCellsOrdered(cell, p, 0);
      RowCellsPositions(cell, p, 0);
      ConcatInSearchOrder(RowCells(cell, p, 0), GridCells(cell, p + 1, maxP));
    }
  }

  lemma {:induction false} GridCellsComplete(cell: CellResults, p: int, maxP: int)
    ensures forall p', b' :: p <= p' <= maxP && 0 <= b' <= MAX_BATTERIES && cell(p', b').Some? ==>
      cell(p', b').value in GridCells(cell, p, maxP)
    decreases maxP + 1 - p
  {
    if p <= maxP {
      GridCellsComplete(cell, p + 1, maxP);
      RowCellsComplete(cell, p, 0);
      var row := RowCells(cell, p, 0);
      var rest := GridCells(cell, p + 1, maxP);
      assert GridCells(cell, p, maxP) == row + rest;
      forall p', b' | p <= p' <= maxP && 0 <= b' <= MAX_BATTERIES && cell(p', b').Some?
        ensures cell(p', b').value in GridCells(cell, p, maxP)
      {
        if p' == p {
          assert cell(p', b').value in row;
        } else {
          assert cell(p', b').value in rest;
        }
      }
    }
  }

  /** The results `recommendations` chooses from. */
  function SearchResults(e: Engine, inp: PlannerInputs): seq<RecommendationResult> {
    GridCells(KeptCells(e, inp), MIN_TIER_PANELS, MaxPanels(inp))
  }

  /**
   * Every result the search keeps lies within the panel limit and 0..20
   * batteries, has a price, is the scenario of its own cell, and exports no
   * more than it imports.
   */
  lemma SearchSound(e: Engine, inp: PlannerInputs)
    ensures forall x :: x in SearchResults(e, inp) ==>
      && MIN_TIER_PANELS <= x.panels <= MaxPanels(inp)
      && 0 <= x.batteries <= MAX_BATTERIES
      && e.calculateSystemCost(x.panels, x.batteries).Some?
      && CalculateScenario(e, inp, x.panels, x.batteries) == Some(x)
      && x.exported <= e.simulateSolar(OrZero(inp.usageKwh), inp.daytimePercent, x.panels, x.batteries).gridImport
  {
    var cell := KeptCells(e, inp);
    assert AtOwnCell(cell);
    GridCellsPositions(cell, MIN_TIER_PANELS, MaxPanels(inp));
    forall x | x in SearchResults(e, inp)
      ensures Kept(e, inp, x.panels, x.batteries) == Some(x)
    {
      assert cell(x.panels, x.batteries) == Some(x);
    }
  }

  /** Every cell within the panel limit and 0..20 batteries that passes the filter is among the results. */
  lemma SearchComplete(e: Engine, inp: PlannerInputs)
    ensures forall p, b :: MIN_TIER_PANELS <= p <= MaxPanels(inp) && 0 <= b <= MAX_BATTERIES && Kept(e, inp, p, b).Some? ==>
      Kept(e, inp, p, b).value in SearchResults(e, inp)
  {
    GridCellsComplete(KeptCells(e, inp), MIN_TIER_PANELS, MaxPanels(inp));
  }

  /** A roof that takes fewer panels than the smallest tier leaves nothing to recommend. */
  lemma SmallRoofNoCells(e: Engine, inp: PlannerInputs)
    requires inp.roofMaxPanels.Num? && inp.roofMaxPanels.value < MIN_TIER_PANELS
    ensures SearchResults(e, inp) == []
  {
  }

  /** The inner loop as it runs: from battery count `b` on, appending each kept result of row `p` to `acc`. */
  function RowFrom(cell: CellResults, p: int, b: int, acc: seq<RecommendationResult>): seq<RecommendationResult>
    decreases MAX_BATTERIES + 1 - b
  {
    if b > MAX_BATTERIES then acc else RowFrom(cell, p, b + 1, acc + OptionToSeq(cell(p, b)))
  }

  lemma {:induction false} RowFromIsRow(cell: CellResults, p: int, b: int, acc: seq<RecommendationResult>)
    ensures RowFrom(cell, p, b, acc) == acc + RowCells(cell, p, b)
    decreases MAX_BATTERIES + 1 - b
  {
    if b > MAX_BATTERIES {
      assert RowCells(cell, p, b) == [];
      ConcatNil(acc);
    } else {
      var k := OptionToSeq(cell(p, b));
      var row' := RowCells(cell, p, b + 1);
      RowFromIsRow(cell, p, b + 1, acc + k);
      assert RowCells(cell, p, b) == k + row';
      ConcatAssoc(acc, k, row');
    }
  }

  lemma ConcatAssoc(xs: seq<RecommendationResult>, ys: seq<RecommendationResult>, zs: seq<RecommendationResult>)
    ensures xs + (ys + zs) == (xs + ys) + zs
  {
  }

  lemma ConcatNil(xs: seq<RecommendationResult>)
    ensures xs + [] == xs
  {
  }

  lemma ConcatEmpty(xs: seq<RecommendationResult>)
    ensures [] + xs == xs
  {
  }

  /**
   * `cell` gives, for every cell, what the search keeps of it. The
   * quantifier fires only on `Kept` terms, so a proof that mentions only
   * `cell` does not unfold the scenarios.
   */
  ghost predicate CellsAreKept(e: Engine, inp: PlannerInputs, cell: CellResults) {
    forall p, b {:trigger Kept(e, inp, p, b)} :: cell(p, b) == Kept(e, inp, p, b)
  }

  /**
   * The search loop of `recommendations`: rows of panels from the smallest
   * tier up to the limit; see `SearchRow` for each row.
   */
  method SearchGrid(e: Engine, inp: PlannerInputs, ghost cell: CellResults) returns (results: seq<RecommendationResult>)
    requires CellsAreKept(e, inp, cell)
    ensures results == GridCells(cell, MIN_TIER_PANELS, MaxPanels(inp))
  {
    var userLimit := if inp.roofMaxPanels.Blank? then NO_ROOF_LIMIT else inp.roofMaxPanels.value;
    var phaseLimit := if inp.phase == Single then 22 else 56;
    var maxPanels := if userLimit <= phaseLimit then userLimit else phaseLimit;
    var tableLimit := LastTierPanels();
    if tableLimit < maxPanels {
      maxPanels := tableLimit;
    }
    var minPanels := FirstTierPanels();
    assert maxPanels == MaxPanels(inp);
    results := SearchRows(e, inp, cell, minPanels, maxPanels);
  }

  /** The outer loop of the search: rows `minP` to `maxP`, in order. */
  method SearchRows(e: Engine, inp: PlannerInputs, ghost cell: CellResults, minP: int, maxP: int)
    returns (results: seq<RecommendationResult>)
    requires CellsAreKept(e, inp, cell)
    ensures results == GridCells(cell, minP, maxP)
  {
    ghost var grid := GridCells(cell, minP, maxP);
    ConcatEmpty(grid);
    results := [];
    var p := minP;
    while p <= maxP
      invariant results + GridCells(cell, p, maxP) == grid
      decreases maxP + 1 - p
    {
      ghost var before := results;
      ghost var row := RowCells(cell, p, 0);
      ghost var rest := GridCells(cell, p + 1, maxP);
      GridCellsStep(cell, p, maxP);
      results := SearchRow(e, inp, cell, p, results);
      RowFromIsRow(cell, p, 0, before);
      ConcatAssoc(before, row, rest);
      p := p + 1;
    }
    GridCellsDone(cell, p, maxP);
    ConcatNil(results);
  }

  lemma GridCellsStep(cell: CellResults, p: int, maxP: int)
    requires p <= maxP
    ensures GridCells(cell, p, maxP) == RowCells(cell, p, 0) + GridCells(cell, p + 1, maxP)
  {
  }

  lemma GridCellsDone(cell: CellResults, p: int, maxP: int)
    requires p > maxP
    ensures GridCells(cell, p, maxP) == []
  {
  }


  /**
   * The inner loop of the search: 0 to 20 batteries with `p` panels,
   * appending each cell that has a price and does not export more than it
   * imports.
   */
  method SearchRow(e: Engine, inp: PlannerInputs, ghost cell: CellResults, p: int, results: seq<RecommendationResult>)
    returns (out: seq<RecommendationResult>)
    requires CellsAreKept(e, inp, cell)
    ensures out == RowFrom(cell, p, 0, results)
  {
    var effectiveUsage := OrZero(inp.usageKwh);
    out := results;
    var b := 0;
    while b <= MAX_BATTERIES
      invariant 0 <= b <= MAX_BATTERIES + 1
      invariant RowFrom(cell, p, b, out) == RowFrom(cell, p, 0, results)
      decreases MAX_BATTERIES + 1 - b
    {
      ghost var before := out;
      var result := CalculateScenario(e, inp, p, b);
      if result.Some? {
        var sim := e.simulateSolar(effectiveUsage, inp.daytimePercent, p, b);
        if !(result.value.exported > sim.gridImport) {
          out := out + [result.value];
          assert cell(p, b) == Kept(e, inp, p, b) == result;
        } else {
          assert cell(p, b) == Kept(e, inp, p, b) == None;
          ConcatNil(out);
        }
      } else {
        assert cell(p, b) == Kept(e, inp, p, b) == None;
        ConcatNil(out);
      }
      assert RowFrom(cell, p, b, before) == RowFrom(cell, p, b + 1, out);
      b := b + 1;
    }
  }

  /**
   * The position a stable ascending sort by `keys` moves to the front: a
   * smallest key, and the first of the smallest.
   */
  function StableMinIndex(keys: seq<real>): (i: nat)
    requires |keys| > 0
    ensures i < |keys|
    ensures forall j :: 0 <= j < |keys| ==> keys[i] <= keys[j]
    ensures forall j :: 0 <= j < i ==> keys[i] < keys[j]
    decreases |keys|
  {
    if |keys| == 1 then 0
    else
      var k := StableMinIndex(keys[..|keys| - 1]);
      if keys[|keys| - 1] < keys[k] then |keys| - 1 else k
  }

  /** `[...xs].sort((a, b) => key(a) - key(b))[0]`, with the keys given position by position. */
  function FirstOfStableSort(xs: seq<RecommendationResult>, keys: seq<real>): (r: Option<RecommendationResult>)
    requires |keys| == |xs|
    ensures r.None? <==> |xs| == 0
    ensures r.Some? ==> r.value == xs[StableMinIndex(keys)]
  {
    if |xs| == 0 then None else Some(xs[StableMinIndex(keys)])
  }

  /**
   * The front of a stable sort over cells in search order is the earliest
   * cell among those with the smallest key.
   */
  lemma EarliestAmongTies(xs: seq<RecommendationResult>, keys: seq<real>)
    requires |keys| == |xs| > 0 && InSearchOrder(xs)
    ensures forall j :: 0 <= j < |xs| && keys[j] == keys[StableMinIndex(keys)] ==>
      xs[j] == xs[StableMinIndex(keys)] || Before(xs[StableMinIndex(keys)], xs[j])
  {
  }

  function PaybackKeys(xs: seq<RecommendationResult>): (r: seq<real>)
    ensures |r| == |xs|
    ensures forall i :: 0 <= i < |xs| ==> r[i] == xs[i].paybackYearsCash
  {
    seq(|xs|, i requires 0 <= i < |xs| => xs[i].paybackYearsCash)
  }

  /** `lowestBreakeven`: a cell with the shortest cash payback, the earliest of those. */
  function LowestBreakeven(xs: seq<RecommendationResult>): (r: Option<RecommendationResult>)
    ensures r.None? <==> |xs| == 0
    ensures r.Some? ==> r.value in xs
    ensures r.Some? ==> forall j :: 0 <= j < |xs| ==> r.value.paybackYearsCash <= xs[j].paybackYearsCash
  {
    FirstOfStableSort(xs, PaybackKeys(xs))
  }

  /** The panel count whose daily output equals the daily usage. */
  function TargetPanels(inp: PlannerInputs): (r: real)
    ensures r * (PANEL_WATTAGE / 1000.0) * PEAK_SUN_HOURS == OrZero(inp.usageKwh) / 30.0
  {
    OrZero(inp.usageKwh) / 30.0 / PEAK_SUN_HOURS / (PANEL_WATTAGE / 1000.0)
  }

  /** The battery count whose capacity equals the daily night usage. */
  function TargetBatteries(inp: PlannerInputs): (r: real)
    ensures r * BATTERY_CAPACITY_KWH == OrZero(inp.usageKwh) * (1.0 - inp.daytimePercent / 100.0) / 30.0
  {
    (OrZero(inp.usageKwh) * (1.0 - inp.daytimePercent / 100.0)) / 30.0 / BATTERY_CAPACITY_KWH
  }

  /** How far a cell is from the target: the panel gap plus the battery gap. */
  function MatchDistance(x: RecommendationResult, targetPanels: real, targetBatteries: real): (r: real)
    ensures r >= 0.0
    ensures r == 0.0 <==> x.panels as real == targetPanels && x.batteries as real == targetBatteries
  {
    Abs(x.panels as real - targetPanels) + Abs(x.batteries as real - targetBatteries)
  }

  function MatchKeys(xs: seq<RecommendationResult>, targetPanels: real, targetBatteries: real): (r: seq<real>)
    ensures |r| == |xs|
    ensures forall i :: 0 <= i < |xs| ==> r[i] == MatchDistance(xs[i], targetPanels, targetBatteries)
  {
    seq(|xs|, i requires 0 <= i < |xs| => MatchDistance(xs[i], targetPanels, targetBatteries))
  }

  /** `matchKwh`: a cell nearest the target sizes, the earliest of those. */
  function MatchKwh(xs: seq<RecommendationResult>, targetPanels: real, targetBatteries: real): (r: Option<RecommendationResult>)
    ensures r.None? <==> |xs| == 0
    ensures r.Some? ==> r.value in xs
    ensures r.Some? ==> forall j :: 0 <= j < |xs| ==>
      MatchDistance(r.value, targetPanels, targetBatteries) <= MatchDistance(xs[j], targetPanels, targetBatteries)
  {
    FirstOfStableSort(xs, MatchKeys(xs, targetPanels, targetBatteries))
  }

  /** A saved share between 90 and 99 per cent, both included. */
  predicate HighOffsetCandidate(x: RecommendationResult) {
    90.0 <= x.savedPercentage <= 99.0
  }

  /** `results.filter(...)`: the high-offset candidates, in their original order. */
  function HighOffsetCandidates(xs: seq<RecommendationResult>): (r: seq<RecommendationResult>)
    ensures forall x :: x in r <==> x in xs && HighOffsetCandidate(x)
    ensures |r| <= |xs|
    decreases |xs|
  {
    if |xs| == 0 then []
    else
      var rest := HighOffsetCandidates(xs[1..]);
      assert forall x :: x in xs <==> x == xs[0] || x in xs[1..];
      if HighOffsetCandidate(xs[0]) then [xs[0]] + rest else rest
  }

  function CashKeys(xs: seq<RecommendationResult>): (r: seq<real>)
    ensures |r| == |xs|
    ensures forall i :: 0 <= i < |xs| ==> r[i] == xs[i].systemCostCash
  {
    seq(|xs|, i requires 0 <= i < |xs| => xs[i].systemCostCash)
  }

  /**
   * `highOffset`: empty when no cell saves 90 to 99 per cent; otherwise one
   * of those cells with the lowest cash price.
   */
  function HighOffset(xs: seq<RecommendationResult>): (r: Option<RecommendationResult>)
    ensures r.None? <==> forall x :: x in xs ==> !HighOffsetCandidate(x)
    ensures r.Some? ==> r.value in xs && HighOffsetCandidate(r.value)
    ensures r.Some? ==> forall x :: x in xs && HighOffsetCandidate(x) ==> r.value.systemCostCash <= x.systemCostCash
  {
    var candidates := HighOffsetCandidates(xs);
    var r := FirstOfStableSort(candidates, CashKeys(candidates));
    if r.None? then
      r
    else
      assert forall x :: x in xs && HighOffsetCandidate(x) ==> r.value.systemCostCash <= x.systemCostCash by {
        forall x | x in xs && HighOffsetCandidate(x)
          ensures r.value.systemCostCash <= x.systemCostCash
        {
          var j :| 0 <= j < |candidates| && candidates[j] == x;
          assert CashKeys(candidates)[j] == x.systemCostCash;
        }
      }
      r
  }

  /**
   * `recommendations`. Without kept cells all four cards are empty;
   * otherwise `lowestBreakeven`, `matchKwh` and `highOffset` are the front
   * of their stable sorts, and `maxSaving` is one of the kept cells (its
   * comparator is not an ordering, so which one depends on the sort).
   */
  method Recommend(e: Engine, inp: PlannerInputs) returns (rec: Recommendations)
    ensures var cells := SearchResults(e, inp);
      && (|cells| == 0 ==> rec == Recommendations(None, None, None, None))
      && (|cells| > 0 ==>
            && rec.lowestBreakeven == LowestBreakeven(cells)
            && rec.matchKwh == MatchKwh(cells, TargetPanels(inp), TargetBatteries(inp))
            && rec.highOffset == HighOffset(cells)
            && rec.maxSaving.Some? && rec.maxSaving.value in cells)
  {
    ghost var cell := KeptCells(e, inp);
    var results := SearchGrid(e, inp, cell);
    if |results| == 0 {
      return Recommendations(None, None, None, None);
    }
    var lowestBreakeven := LowestBreakeven(results);
    var targetPanels := TargetPanels(inp);
    var targetBatteries := TargetBatteries(inp);
    var matchKwh := MatchKwh(results, targetPanels, targetBatteries);
    var highOffset := HighOffset(results);
    var maxSaving :| maxSaving in results;
    rec := Recommendations(lowestBreakeven, matchKwh, highOffset, Some(maxSaving));
  }

  /** The search's results come in search order. */
  lemma SearchInOrder(e: Engine, inp: PlannerInputs)
    ensures InSearchOrder(SearchResults(e, inp))
  {
    var cell := KeptCells(e, inp);
    assert AtOwnCell(cell);
    GridCellsOrdered(cell, MIN_TIER_PANELS, MaxPanels(inp));
  }

  /** Over cells in search order, `lowestBreakeven` is the earliest of those with its payback. */
  lemma LowestBreakevenEarliest(xs: seq<RecommendationResult>)
    requires InSearchOrder(xs)
    ensures LowestBreakeven(xs).Some? ==>
      forall x :: x in xs && x.paybackYearsCash == LowestBreakeven(xs).value.paybackYearsCash ==>
        x == LowestBreakeven(xs).value || Before(LowestBreakeven(xs).value, x)
  {
    if |xs| > 0 {
      var keys := PaybackKeys(xs);
      EarliestAmongTies(xs, keys);
      forall x | x in xs && x.paybackYearsCash == LowestBreakeven(xs).value.paybackYearsCash
        ensures x == LowestBreakeven(xs).value || Before(LowestBreakeven(xs).value, x)
      {
        var j :| 0 <= j < |xs| && xs[j] == x;
        assert keys[j] == x.paybackYearsCash;
      }
    }
  }

  /**
   * Ties on the shortest payback go to the earliest cell in search order:
   * fewest panels, then fewest batteries.
   */
  lemma LowestBreakevenPrefersSmallest(e: Engine, inp: PlannerInputs)
    ensures var cells := SearchResults(e, inp);
      LowestBreakeven(cells).Some? ==>
        forall x :: x in cells && x.paybackYearsCash == LowestBreakeven(cells).value.paybackYearsCash ==>
          x == LowestBreakeven(cells).value || Before(LowestBreakeven(cells).value, x)
  {
    SearchInOrder(e, inp);
    LowestBreakevenEarliest(SearchResults(e, inp));
  }

  /** Over cells in search order, `matchKwh` is the earliest of those at its distance. */
  lemma MatchKwhEarliest(xs: seq<RecommendationResult>, tp: real, tb: real)
    requires InSearchOrder(xs)
    ensures MatchKwh(xs, tp, tb).Some? ==>
      forall x :: x in xs && MatchDistance(x, tp, tb) == MatchDistance(MatchKwh(xs, tp, tb).value, tp, tb) ==>
        x == MatchKwh(xs, tp, tb).value || Before(MatchKwh(xs, tp, tb).value, x)
  {
    if |xs| > 0 {
      var keys := MatchKeys(xs, tp, tb);
      EarliestAmongTies(xs, keys);
      forall x | x in xs && MatchDistance(x, tp, tb) == MatchDistance(MatchKwh(xs, tp, tb).value, tp, tb)
        ensures x == MatchKwh(xs, tp, tb).value || Before(MatchKwh(xs, tp, tb).value, x)
      {
        var j :| 0 <= j < |xs| && xs[j] == x;
        assert keys[j] == MatchDistance(x, tp, tb);
      }
    }
  }

  /** Ties on the distance to the target go to the earliest cell in search order. */
  lemma MatchKwhPrefersSmallest(e: Engine, inp: PlannerInputs)
    ensures var cells := SearchResults(e, inp);
      var tp := TargetPanels(inp);
      var tb := TargetBatteries(inp);
      MatchKwh(cells, tp, tb).Some? ==>
        forall x :: x in cells && MatchDistance(x, tp, tb) == MatchDistance(MatchKwh(cells, tp, tb).value, tp, tb) ==>
          x == MatchKwh(cells, tp, tb).value || Before(MatchKwh(cells, tp, tb).value, x)
  {
    SearchInOrder(e, inp);
    MatchKwhEarliest(SearchResults(e, inp), TargetPanels(inp), TargetBatteries(inp));
  }

  /**
   * `manualResult`: nothing for an empty or too small panel count;
   * otherwise the scenario for those panels and the given batteries (none
   * when that field is empty).
   */
  function ManualResult(e: Engine, inp: PlannerInputs, manualPanels: Field<int>, manualBatteries: Field<int>)
    : (r: Option<RecommendationResult>)
    ensures manualPanels.Blank? || manualPanels.value < 6 ==> r.None?
    ensures manualPanels.Num? && manualPanels.value >= 6 ==>
      var b := if manualBatteries.Num? then manualBatteries.value else 0;
      && (r.None? <==> e.calculateSystemCost(manualPanels.value, b).None?)
      && (r.Some? ==> r.value.panels == manualPanels.value && r.value.batteries == b)
      && r == CalculateScenario(e, inp, manualPanels.value, b)
  {
    if manualPanels.Blank? || manualPanels.value < 6 then None
    else
      var b := if manualBatteries.Num? then manualBatteries.value else 0;
      CalculateScenario(e, inp, manualPanels.value, b)
  }

  /**
   * A manual choice of a cell the search keeps shows the very card the
   * search found for that cell: the manual result is one of the search
   * results.
   */
  lemma ManualMatchesSearch(e: Engine, inp: PlannerInputs, p: int, b: int)
    requires MIN_TIER_PANELS <= p <= MaxPanels(inp) && 0 <= b <= MAX_BATTERIES
    requires Kept(e, inp, p, b).Some?
    ensures ManualResult(e, inp, Num(p), Num(b)) == Kept(e, inp, p, b)
    ensures ManualResult(e, inp, Num(p), Num(b)).value in SearchResults(e, inp)
  {
    SearchComplete(e, inp);
  }
}
