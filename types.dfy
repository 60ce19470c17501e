/**
 * The record shapes shared by the solar calculator (types.ts), the
 * `number | ''` form fields, and the billing engine the components call.
 *
 * The billing engine (`calculateBill`, `getKwhFromBill`, `simulateSolar`,
 * `calculateSystemCost`) is not part of this model: it enters every
 * operation as an `Engine` value whose four fields are those functions.
 * Nothing is known about what they compute beyond their types.
 */
module Types {

  datatype Option<T> = None | Some(value: T)

  /** A numeric form field that may also be left empty (`number | ''`). */
  datatype Field<T> = Blank | Num(value: T)

  /** The number a field stands for, an empty field counting as zero. */
  function OrZero(f: Field<real>): (r: real)
    ensures f.Blank? ==> r == 0.0
    ensures f.Num? ==> r == f.value
  {
    match f
    case Blank => 0.0
    case Num(v) => v
  }

  /** The band table row of the energy-efficiency discount. */
  datatype DiscountBlock = DiscountBlock(min: int, max: int, discountSen: real)

  /** Optional fields (`exportCredit?`, `exportUnits?`, ...) are `Option`s. */
  datatype BillBreakdown = BillBreakdown(
    baseCharge: real,
    retailCharge: real,
    discount: real,
    serviceTax: real,
    kwtbb: real,
    exportCredit: Option<real>,
    exportUnits: Option<real>,
    eeIncentiveAdjustment: Option<real>,
    subtotal: real,
    finalTotal: real,
    units: real)

  /** `bill.exportUnits || 0`: an absent (or zero) export count reads as 0. */
  function ExportUnitsOrZero(bill: BillBreakdown): (r: real)
    ensures bill.exportUnits.None? ==> r == 0.0
    ensures bill.exportUnits.Some? ==> r == bill.exportUnits.value
  {
    match bill.exportUnits
    case None => 0.0
    case Some(u) => u
  }

  datatype SimulationResult = SimulationResult(
    originalBill: BillBreakdown,
    newBill: BillBreakdown,
    solarGenerationMonthly: real,
    solarUtilized: real,
    batteryDischarge: real,
    gridImport: real,
    monthlySavings: real,
    demandDay: real,
    demandNight: real)

  datatype PricingTier = PricingTier(
    panels: int,
    kwp: real,
    inverterSize: string,
    cashPrice: real,
    ccPrice: real)

  datatype RecommendationResult = RecommendationResult(
    panels: int,
    batteries: int,
    systemCostCash: real,
    systemCostCC: real,
    monthlySavings: real,
    savedPercentage: real,
    newBillAmount: real,
    paybackYearsCash: real,
    paybackYearsCC: real,
    roiPercentage: real,
    generation: real,
    exported: real,  // `export` in the source, a reserved word here
    inverterSize: string,
    newImportKwh: real,
    newExportKwh: real,
    batteryUtilization: real)

  /** What `calculateSystemCost` returns when the panel count has a tier. */
  datatype SystemCost = SystemCost(cash: real, cc: real, tier: PricingTier)

  /** The four functions of the billing engine, as values. */
  datatype Engine = Engine(
    calculateBill: real -> BillBreakdown,
    getKwhFromBill: real -> real,
    simulateSolar: (real, real, int, int) -> SimulationResult,
    calculateSystemCost: (int, int) -> Option<SystemCost>)
}
