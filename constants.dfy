/**
 * The static data the calculator runs on (constants.ts): tariff rates and
 * thresholds, the solar and battery constants, the energy-efficiency
 * discount bands and the system price list, with the invariants the rest of
 * the program relies on.
 */
module Constants {
  import opened Types
  import opened Text

  // Tariff rates (RM per kWh) and thresholds (kWh)
  const RATE_BELOW_1500: real := 0.4443
  const RATE_ABOVE_1500: real := 0.5443
  const THRESHOLD_RATE_CHANGE: int := 1500
  const RETAIL_CHARGE: real := 10.0
  const RETAIL_CHARGE_THRESHOLD: int := 600
  const TAX_RATE: real := 0.08
  const TAX_THRESHOLD: int := 600
  const KWTBB_RATE: real := 0.016
  const EXPORT_RATE: real := 0.20

  // Solar constants
  const PANEL_WATTAGE: real := 620.0
  const PEAK_SUN_HOURS: real := 3.5
  const BATTERY_CAPACITY_KWH: real := 12.87
  const SYSTEM_LOSS_FACTOR: real := 1.0

  // Battery prices (RM per unit)
  const BATTERY_COST_CASH: real := 7400.0
  const BATTERY_COST_CC: real := 8000.0

  /** Energy-efficiency discount bands, in sen per kWh; none above 1000 kWh. */
  const DISCOUNT_TABLE: seq<DiscountBlock> := [
    DiscountBlock(1, 200, -25.0),
    DiscountBlock(201, 250, -24.5),
    DiscountBlock(251, 300, -22.5),
    DiscountBlock(301, 350, -21.0),
    DiscountBlock(351, 400, -17.0),
    DiscountBlock(401, 450, -14.5),
    DiscountBlock(451, 500, -12.0),
    DiscountBlock(501, 550, -10.5),
    DiscountBlock(551, 600, -9.0),
    DiscountBlock(601, 650, -7.5),
    DiscountBlock(651, 700, -5.5),
    DiscountBlock(701, 750, -4.5),
    DiscountBlock(751, 800, -4.0),
    DiscountBlock(801, 850, -2.5),
    DiscountBlock(851, 900, -1.0),
    DiscountBlock(901, 1000, -0.5)
  ]

  // The inverter labels of the price list
  const INVERTER_5KW_SINGLE: string := "5 kWac Single Phase"
  const INVERTER_8KW_SINGLE: string := "8 kWac Single Phase"
  const INVERTER_8KW_SINGLE_ALT: string := "Single Phase 8 kWac"
  const INVERTER_10KW_THREE: string := "10 kWac Three Phase"
  const INVERTER_12KW_THREE: string := "12 kWac Three Phase"
  const INVERTER_15KW_THREE: string := "15 kWac Three Phase"
  const INVERTER_20KW_THREE: string := "20 kWac Three Phase"

  /**
   * The system price list: one tier per panel count, written as its
   * single-phase part (6 to 22 panels), its three-phase tiers up to 15 kWac
   * (23 to 40 panels) and its 20 kWac tiers (41 to 56 panels).
   */
  const SYSTEM_PRICING: seq<PricingTier> := SINGLE_PHASE_TIERS + THREE_PHASE_TIERS + TWENTY_KWAC_TIERS

  const SINGLE_PHASE_TIERS: seq<PricingTier> := [
    PricingTier(6, 3.72, INVERTER_5KW_SINGLE, 18200.0, 20040.0),
    PricingTier(7, 4.34, INVERTER_5KW_SINGLE, 18600.0, 20440.0),
    PricingTier(8, 4.96, INVERTER_5KW_SINGLE, 19000.0, 20840.0),
    PricingTier(9, 5.58, INVERTER_5KW_SINGLE, 19400.0, 21240.0),
    PricingTier(10, 6.2, INVERTER_5KW_SINGLE, 19800.0, 21640.0),
    PricingTier(11, 6.82, INVERTER_5KW_SINGLE, 20500.0, 22410.0),
    PricingTier(12, 7.44, INVERTER_5KW_SINGLE, 21200.0, 23170.0),
    PricingTier(13, 8.06, INVERTER_5KW_SINGLE, 21950.0, 24000.0),
    PricingTier(14, 8.68, INVERTER_5KW_SINGLE, 22650.0, 24760.0),
    PricingTier(15, 9.3, INVERTER_8KW_SINGLE, 26800.0, 29290.0),
    PricingTier(16, 9.92, INVERTER_8KW_SINGLE, 27700.0, 30280.0),
    PricingTier(17, 10.54, INVERTER_8KW_SINGLE, 28600.0, 31260.0),
    PricingTier(18, 11.16, INVERTER_8KW_SINGLE, 29500.0, 32250.0),
    PricingTier(19, 11.78, INVERTER_8KW_SINGLE, 30400.0, 33230.0),
    PricingTier(20, 12.4, INVERTER_8KW_SINGLE, 31200.0, 34100.0),
    PricingTier(21, 13.02, INVERTER_8KW_SINGLE, 32100.0, 35100.0),
    PricingTier(22, 13.64, INVERTER_8KW_SINGLE_ALT, 33000.0, 36100.0)
  ]

  const THREE_PHASE_TIERS: seq<PricingTier> := [
    PricingTier(23, 14.26, INVERTER_10KW_THREE, 37200.0, 40700.0),
    PricingTier(24, 14.88, INVERTER_10KW_THREE, 38100.0, 41640.0),
    PricingTier(25, 15.5, INVERTER_10KW_THREE, 39000.0, 42630.0),
    PricingTier(26, 16.12, INVERTER_10KW_THREE, 39900.0, 43610.0),
    PricingTier(27, 16.74, INVERTER_12KW_THREE, 41500.0, 45360.0),
    PricingTier(28, 17.36, INVERTER_12KW_THREE, 41900.0, 45800.0),
    PricingTier(29, 17.98, INVERTER_12KW_THREE, 42300.0, 46230.0),
    PricingTier(30, 18.6, INVERTER_12KW_THREE, 42700.0, 46670.0),
    PricingTier(31, 19.22, INVERTER_12KW_THREE, 43100.0, 47110.0),
    PricingTier(32, 19.84, INVERTER_12KW_THREE, 43500.0, 47550.0),
    PricingTier(33, 20.46, INVERTER_15KW_THREE, 44800.0, 48850.0),
    PricingTier(34, 21.08, INVERTER_15KW_THREE, 45400.0, 49450.0),
    PricingTier(35, 21.7, INVERTER_15KW_THREE, 46000.0, 50050.0),
    PricingTier(36, 22.32, INVERTER_15KW_THREE, 46600.0, 50650.0),
    PricingTier(37, 22.94, INVERTER_15KW_THREE, 47200.0, 51250.0),
    PricingTier(38, 23.56, INVERTER_15KW_THREE, 47800.0, 51850.0),
    PricingTier(39, 24.18, INVERTER_15KW_THREE, 48400.0, 52450.0),
    PricingTier(40, 24.8, INVERTER_15KW_THREE, 49000.0, 53050.0)
  ]

  const TWENTY_KWAC_TIERS: seq<PricingTier> := [
    PricingTier(41, 25.42, INVERTER_20KW_THREE, 51300.0, 55350.0),
    PricingTier(42, 26.04, INVERTER_20KW_THREE, 52200.0, 56250.0),
    PricingTier(43, 26.66, INVERTER_20KW_THREE, 53100.0, 57150.0),
    PricingTier(44, 27.28, INVERTER_20KW_THREE, 54000.0, 58050.0),
    PricingTier(45, 27.9, INVERTER_20KW_THREE, 54900.0, 58950.0),
    PricingTier(46, 28.52, INVERTER_20KW_THREE, 55800.0, 59850.0),
    PricingTier(47, 29.14, INVERTER_20KW_THREE, 56700.0, 60750.0),
    PricingTier(48, 29.76, INVERTER_20KW_THREE, 57500.0, 61550.0),
    PricingTier(49, 30.38, INVERTER_20KW_THREE, 58300.0, 62350.0),
    PricingTier(50, 31.0, INVERTER_20KW_THREE, 59100.0, 63150.0),
    PricingTier(51, 31.62, INVERTER_20KW_THREE, 59900.0, 63950.0),
    PricingTier(52, 32.24, INVERTER_20KW_THREE, 60700.0, 64750.0),
    PricingTier(53, 32.86, INVERTER_20KW_THREE, 61500.0, 65550.0),
    PricingTier(54, 33.48, INVERTER_20KW_THREE, 62000.0, 67400.0),
    PricingTier(55, 34.10, INVERTER_20KW_THREE, 62200.0, 67600.0),
    PricingTier(56, 34.72, INVERTER_20KW_THREE, 62400.0, 67800.0)
  ]

  // ---------------------------------------------------------------------
  // Discount bands

  predicate InBand(band: DiscountBlock, units: int) {
    band.min <= units <= band.max
  }

  /** Every band is a non-empty range and each starts right after the previous one. */
  predicate ContiguousBands(bands: seq<DiscountBlock>) {
    && (forall i :: 0 <= i < |bands| ==> bands[i].min <= bands[i].max)
    && (forall i :: 0 < i < |bands| ==> bands[i].min == bands[i - 1].max + 1)
  }

  /** In contiguous bands, a band ends before any later band begins. */
  lemma {:induction false} ContiguousBandsAscend(bands: seq<DiscountBlock>, i: int, j: int)
    requires ContiguousBands(bands)
    requires 0 <= i < j < |bands|
    ensures bands[i].max < bands[j].min
    decreases j - i
  {
    if i + 1 < j {
      ContiguousBandsAscend(bands, i, j - 1);
    }
  }

  /** Contiguous bands cover every usage between the first minimum and the last maximum. */
  lemma {:induction false} ContiguousBandsCover(bands: seq<DiscountBlock>, units: int)
    requires ContiguousBands(bands) && |bands| > 0
    requires bands[0].min <= units <= bands[|bands| - 1].max
    ensures exists i :: 0 <= i < |bands| && InBand(bands[i], units)
  {
    var last := |bands| - 1;
    if units >= bands[last].min {
      assert InBand(bands[last], units);
    } else {
      var prefix := bands[..last];
      assert ContiguousBands(prefix);
      ContiguousBandsCover(prefix, units);
      var i :| 0 <= i < |prefix| && InBand(prefix[i], units);
      assert InBand(bands[i], units);
    }
  }

  /** The shape of the discount table: 16 contiguous bands from 1 to 1000 kWh. */
  lemma DiscountTableShape()
    ensures |DISCOUNT_TABLE| == 16
    ensures ContiguousBands(DISCOUNT_TABLE)
    ensures DISCOUNT_TABLE[0].min == 1 && DISCOUNT_TABLE[15].max == 1000
  {
    assert BandsFrom(DISCOUNT_TABLE, 15);
    assert BandsFrom(DISCOUNT_TABLE, 14);
    assert BandsFrom(DISCOUNT_TABLE, 13);
    assert BandsFrom(DISCOUNT_TABLE, 12);
    assert BandsFrom(DISCOUNT_TABLE, 11);
    assert BandsFrom(DISCOUNT_TABLE, 10);
    assert BandsFrom(DISCOUNT_TABLE, 9);
    assert BandsFrom(DISCOUNT_TABLE, 8);
    assert BandsFrom(DISCOUNT_TABLE, 7);
    assert BandsFrom(DISCOUNT_TABLE, 6);
    assert BandsFrom(DISCOUNT_TABLE, 5);
    assert BandsFrom(DISCOUNT_TABLE, 4);
    assert BandsFrom(DISCOUNT_TABLE, 3);
    assert BandsFrom(DISCOUNT_TABLE, 2);
    assert BandsFrom(DISCOUNT_TABLE, 1);
    assert BandsFrom(DISCOUNT_TABLE, 0);
    BandsFromContiguous(DISCOUNT_TABLE, 0);
  }

  /** Every band from `k` on is non-empty and starts right after the one before it. */
  predicate BandsFrom(bands: seq<DiscountBlock>, k: nat)
    decreases |bands| - k
  {
    k >= |bands| ||
    (bands[k].min <= bands[k].max
     && (k > 0 ==> bands[k].min == bands[k - 1].max + 1)
     && BandsFrom(bands, k + 1))
  }

  lemma {:induction false} BandsFromContiguous(bands: seq<DiscountBlock>, k: nat)
    requires BandsFrom(bands, k)
    ensures forall i :: k <= i < |bands| ==> bands[i].min <= bands[i].max
    ensures forall i :: k <= i < |bands| && 0 < i ==> bands[i].min == bands[i - 1].max + 1
    ensures k == 0 ==> ContiguousBands(bands)
    decreases |bands| - k
  {
    if k < |bands| {
      BandsFromContiguous(bands, k + 1);
    }
  }

  /**
   * A usage lies in some discount band exactly when it is between 1 and
   * 1000 kWh, and then in only one: zero usage and usage above 1000 kWh get
   * no discount band at all.
   */
  lemma DiscountBandUnique(units: int)
    ensures (exists i :: 0 <= i < |DISCOUNT_TABLE| && InBand(DISCOUNT_TABLE[i], units))
      <==> 1 <= units <= 1000
    ensures forall i, j ::
      (0 <= i < |DISCOUNT_TABLE| && 0 <= j < |DISCOUNT_TABLE| &&
       InBand(DISCOUNT_TABLE[i], units) && InBand(DISCOUNT_TABLE[j], units)) ==> i == j
  {
    DiscountTableShape();
    if 1 <= units <= 1000 {
      ContiguousBandsCover(DISCOUNT_TABLE, units);
    }
    forall i | 0 <= i < |DISCOUNT_TABLE|
      ensures 1 <= DISCOUNT_TABLE[i].min && DISCOUNT_TABLE[i].max <= 1000
    {
      if 0 < i { ContiguousBandsAscend(DISCOUNT_TABLE, 0, i); }
      if i < 15 { ContiguousBandsAscend(DISCOUNT_TABLE, i, 15); }
    }
    forall i, j | 0 <= i < |DISCOUNT_TABLE| && 0 <= j < |DISCOUNT_TABLE|
        && InBand(DISCOUNT_TABLE[i], units) && InBand(DISCOUNT_TABLE[j], units)
      ensures i == j
    {
      if i < j { ContiguousBandsAscend(DISCOUNT_TABLE, i, j); }
      if j < i { ContiguousBandsAscend(DISCOUNT_TABLE, j, i); }
    }
  }

  /** Adjacent increases add up to an increase between any two positions. */
  lemma {:induction false} AdjacentIncreaseIsGlobal(s: seq<real>)
    requires forall i :: 0 < i < |s| ==> s[i - 1] < s[i]
    ensures forall i, j :: 0 <= i < j < |s| ==> s[i] < s[j]
  {
    if |s| > 1 {
      var prefix := s[..|s| - 1];
      AdjacentIncreaseIsGlobal(prefix);
      forall i, j | 0 <= i < j < |s|
        ensures s[i] < s[j]
      {
        if j < |s| - 1 {
          assert prefix[i] < prefix[j];
        } else if i < j - 1 {
          assert prefix[i] < prefix[j - 1];
        }
      }
    }
  }

  function DiscountRates(): (r: seq<real>)
    ensures |r| == |DISCOUNT_TABLE|
    ensures forall i :: 0 <= i < |r| ==> r[i] == DISCOUNT_TABLE[i].discountSen
  {
    seq(|DISCOUNT_TABLE|, i requires 0 <= i < |DISCOUNT_TABLE| => DISCOUNT_TABLE[i].discountSen)
  }

  /**
   * Every band's discount is negative and the discount shrinks toward zero
   * as the bands go up, from -25 to -0.5 sen per kWh.
   */
  lemma DiscountRatesRiseTowardZero()
    ensures forall i :: 0 <= i < |DISCOUNT_TABLE| ==> DISCOUNT_TABLE[i].discountSen < 0.0
    ensures forall i, j :: 0 <= i < j < |DISCOUNT_TABLE| ==>
      DISCOUNT_TABLE[i].discountSen < DISCOUNT_TABLE[j].discountSen
    ensures DISCOUNT_TABLE[0].discountSen == -25.0
    ensures DISCOUNT_TABLE[|DISCOUNT_TABLE| - 1].discountSen == -0.5
  {
    var rates := DiscountRates();
    AdjacentIncreaseIsGlobal(rates);
    forall i, j | 0 <= i < j < |DISCOUNT_TABLE|
      ensures DISCOUNT_TABLE[i].discountSen < DISCOUNT_TABLE[j].discountSen
    {
      assert rates[i] < rates[j];
    }
  }

  // ---------------------------------------------------------------------
  // System price list

  /** The inverter the price list gives for a panel count. */
  function InverterFor(panels: int): string {
    if panels <= 14 then INVERTER_5KW_SINGLE
    else if panels <= 21 then INVERTER_8KW_SINGLE
    else if panels == 22 then INVERTER_8KW_SINGLE_ALT
    else if panels <= 26 then INVERTER_10KW_THREE
    else if panels <= 32 then INVERTER_12KW_THREE
    else if panels <= 40 then INVERTER_15KW_THREE
    else INVERTER_20KW_THREE
  }

  const MIN_TIER_PANELS: int := 6
  const MAX_TIER_PANELS: int := 56

  /** What every tier states about itself and about the tier before it. */
  predicate TierFacts(i: int)
    requires 0 <= i < |SYSTEM_PRICING|
  {
    && TierOk(SYSTEM_PRICING[i], i)
    && (i > 0 ==> Cheaper(SYSTEM_PRICING[i - 1], SYSTEM_PRICING[i]))
  }

  /** The tier at index `i` of the list: its panels, kWp and inverter, and cash below instalments. */
  predicate TierOk(t: PricingTier, i: int) {
    && t.panels == MIN_TIER_PANELS + i
    && t.kwp == t.panels as real * PANEL_WATTAGE / 1000.0
    && t.inverterSize == InverterFor(t.panels)
    && t.cashPrice < t.ccPrice
  }

  /** `a` costs less than `b`, in cash and in instalments. */
  predicate Cheaper(a: PricingTier, b: PricingTier) {
    a.cashPrice < b.cashPrice && a.ccPrice < b.ccPrice
  }

  /**
   * Every tier of `part` from `k` on passes `ok` at its index in the whole
   * list (`offset + k`), and costs less than the next tier of `part`.
   */
  predicate PartFrom(part: seq<PricingTier>, offset: int, k: nat, ok: (PricingTier, int) -> bool)
    decreases |part| - k
  {
    k >= |part| ||
    (ok(part[k], offset + k)
     && (k + 1 < |part| ==> Cheaper(part[k], part[k + 1]))
     && PartFrom(part, offset, k + 1, ok))
  }

  lemma {:induction false} PartAt(part: seq<PricingTier>, offset: int, from: nat, k: int, ok: (PricingTier, int) -> bool)
    requires PartFrom(part, offset, from, ok) && from <= k < |part|
    ensures ok(part[k], offset + k)
    ensures k + 1 < |part| ==> Cheaper(part[k], part[k + 1])
    decreases k - from
  {
    if from < k {
      PartAt(part, offset, from + 1, k, ok);
    }
  }

  /** Every tier of `tiers` passes `ok` at its own index and costs less than the one after it. */
  ghost predicate ListOk(tiers: seq<PricingTier>, ok: (PricingTier, int) -> bool) {
    && (forall i :: 0 <= i < |tiers| ==> ok(tiers[i], i))
    && (forall i, j :: 0 <= i < j < |tiers| && j == i + 1 ==> Cheaper(tiers[i], tiers[j]))
  }

  /** A checked list followed by a checked part that continues it is a checked list. */
  lemma AppendPart(front: seq<PricingTier>, part: seq<PricingTier>, ok: (PricingTier, int) -> bool)
    requires ListOk(front, ok) && PartFrom(part, |front|, 0, ok)
    requires |front| > 0 && |part| > 0 ==> Cheaper(front[|front| - 1], part[0])
    ensures ListOk(front + part, ok)
  {
    AppendPartTiers(front, part, ok);
    AppendPartPrices(front, part, ok);
  }

  lemma AppendPartTiers(front: seq<PricingTier>, part: seq<PricingTier>, ok: (PricingTier, int) -> bool)
    requires forall i :: 0 <= i < |front| ==> ok(front[i], i)
    requires PartFrom(part, |front|, 0, ok)
    ensures forall i :: 0 <= i < |front + part| ==> ok((front + part)[i], i)
  {
    var all := front + part;
    forall i | 0 <= i < |all|
      ensures ok(all[i], i)
    {
      if i < |front| {
        assert all[i] == front[i];
      } else {
        PartAt(part, |front|, 0, i - |front|, ok);
        assert all[i] == part[i - |front|];
      }
    }
  }

  lemma AppendPartPrices(front: seq<PricingTier>, part: seq<PricingTier>, ok: (PricingTier, int) -> bool)
    requires forall i, j :: 0 <= i < j < |front| && j == i + 1 ==> Cheaper(front[i], front[j])
    requires PartFrom(part, |front|, 0, ok)
    requires |front| > 0 && |part| > 0 ==> Cheaper(front[|front| - 1], part[0])
    ensures forall i, j :: 0 <= i < j < |front + part| && j == i + 1 ==> Cheaper((front + part)[i], (front + part)[j])
  {
    var all := front + part;
    forall i, j | 0 <= i < j < |all| && j == i + 1
      ensures Cheaper(all[i], all[j])
    {
      if j < |front| {
        assert all[i] == front[i] && all[j] == front[j];
      } else if i < |front| {
        assert all[i] == front[|front| - 1] && all[j] == part[0];
      } else {
        PartAt(part, |front|, 0, i - |front|, ok);
        assert all[i] == part[i - |front|] && all[j] == part[i - |front| + 1];
      }
    }
  }

  // The check of every tier, a few tiers at a time from the last of each part.
  lemma SinglePhaseFactsFrom11()
    ensures PartFrom(SINGLE_PHASE_TIERS, 0, 11, TierOk)
  {
    assert PartFrom(SINGLE_PHASE_TIERS, 0, 16, TierOk);
    assert PartFrom(SINGLE_PHASE_TIERS, 0, 15, TierOk);
    assert PartFrom(SINGLE_PHASE_TIERS, 0, 14, TierOk);
    assert PartFrom(SINGLE_PHASE_TIERS, 0, 13, TierOk);
    assert PartFrom(SINGLE_PHASE_TIERS, 0, 12, TierOk);
    assert PartFrom(SINGLE_PHASE_TIERS, 0, 11, TierOk);
  }

  lemma SinglePhaseFactsFrom5()
    requires PartFrom(SINGLE_PHASE_TIERS, 0, 11, TierOk)
    ensures PartFrom(SINGLE_PHASE_TIERS, 0, 5, TierOk)
  {
    assert PartFrom(SINGLE_PHASE_TIERS, 0, 10, TierOk);
    assert PartFrom(SINGLE_PHASE_TIERS, 0, 9, TierOk);
    assert PartFrom(SINGLE_PHASE_TIERS, 0, 8, TierOk);
    assert PartFrom(SINGLE_PHASE_TIERS, 0, 7, TierOk);
    assert PartFrom(SINGLE_PHASE_TIERS, 0, 6, TierOk);
    assert PartFrom(SINGLE_PHASE_TIERS, 0, 5, TierOk);
  }

  lemma SinglePhaseFactsFrom0()
    requires PartFrom(SINGLE_PHASE_TIERS, 0, 5, TierOk)
    ensures PartFrom(SINGLE_PHASE_TIERS, 0, 0, TierOk)
  {
    assert PartFrom(SINGLE_PHASE_TIERS, 0, 4, TierOk);
    assert PartFrom(SINGLE_PHASE_TIERS, 0, 3, TierOk);
    assert PartFrom(SINGLE_PHASE_TIERS, 0, 2, TierOk);
    assert PartFrom(SINGLE_PHASE_TIERS, 0, 1, TierOk);
    assert PartFrom(SINGLE_PHASE_TIERS, 0, 0, TierOk);
  }

  lemma SinglePhaseFacts()
    ensures PartFrom(SINGLE_PHASE_TIERS, 0, 0, TierOk)
  {
    SinglePhaseFactsFrom11();
    SinglePhaseFactsFrom5();
    SinglePhaseFactsFrom0();
  }

  lemma ThreePhaseFactsFrom15()
    ensures PartFrom(THREE_PHASE_TIERS, 17, 15, TierOk)
  {
    assert PartFrom(THREE_PHASE_TIERS, 17, 17, TierOk);
    assert PartFrom(THREE_PHASE_TIERS, 17, 16, TierOk);
    assert PartFrom(THREE_PHASE_TIERS, 17, 15, TierOk);
  }

  lemma ThreePhaseFactsFrom12()
    requires PartFrom(THREE_PHASE_TIERS, 17, 15, TierOk)
    ensures PartFrom(THREE_PHASE_TIERS, 17, 12, TierOk)
  {
    assert PartFrom(THREE_PHASE_TIERS, 17, 14, TierOk);
    assert PartFrom(THREE_PHASE_TIERS, 17, 13, TierOk);
    assert PartFrom(THREE_PHASE_TIERS, 17, 12, TierOk);
  }

  lemma ThreePhaseFactsFrom9()
    requires PartFrom(THREE_PHASE_TIERS, 17, 12, TierOk)
    ensures PartFrom(THREE_PHASE_TIERS, 17, 9, TierOk)
  {
    assert PartFrom(THREE_PHASE_TIERS, 17, 11, TierOk);
    assert PartFrom(THREE_PHASE_TIERS, 17, 10, TierOk);
    assert PartFrom(THREE_PHASE_TIERS, 17, 9, TierOk);
  }

  lemma ThreePhaseFactsFrom6()
    requires PartFrom(THREE_PHASE_TIERS, 17, 9, TierOk)
    ensures PartFrom(THREE_PHASE_TIERS, 17, 6, TierOk)
  {
    assert PartFrom(THREE_PHASE_TIERS, 17, 8, TierOk);
    assert PartFrom(THREE_PHASE_TIERS, 17, 7, TierOk);
    assert PartFrom(THREE_PHASE_TIERS, 17, 6, TierOk);
  }

  lemma ThreePhaseFactsFrom3()
    requires PartFrom(THREE_PHASE_TIERS, 17, 6, TierOk)
    ensures PartFrom(THREE_PHASE_TIERS, 17, 3, TierOk)
  {
    assert PartFrom(THREE_PHASE_TIERS, 17, 5, TierOk);
    assert PartFrom(THREE_PHASE_TIERS, 17, 4, TierOk);
    assert PartFrom(THREE_PHASE_TIERS, 17, 3, TierOk);
  }

  lemma ThreePhaseFactsFrom0()
    requires PartFrom(THREE_PHASE_TIERS, 17, 3, TierOk)
    ensures PartFrom(THREE_PHASE_TIERS, 17, 0, TierOk)
  {
    assert PartFrom(THREE_PHASE_TIERS, 17, 2, TierOk);
    assert PartFrom(THREE_PHASE_TIERS, 17, 1, TierOk);
    assert PartFrom(THREE_PHASE_TIERS, 17, 0, TierOk);
  }

  lemma ThreePhaseFacts()
    ensures PartFrom(THREE_PHASE_TIERS, 17, 0, TierOk)
  {
    ThreePhaseFactsFrom15();
    ThreePhaseFactsFrom12();
    ThreePhaseFactsFrom9();
    ThreePhaseFactsFrom6();
    ThreePhaseFactsFrom3();
    ThreePhaseFactsFrom0();
  }

  lemma TwentyKwacFactsFrom10()
    ensures PartFrom(TWENTY_KWAC_TIERS, 35, 10, TierOk)
  {
    assert PartFrom(TWENTY_KWAC_TIERS, 35, 15, TierOk);
    assert PartFrom(TWENTY_KWAC_TIERS, 35, 14, TierOk);
    assert PartFrom(TWENTY_KWAC_TIERS, 35, 13, TierOk);
    assert PartFrom(TWENTY_KWAC_TIERS, 35, 12, TierOk);
    assert PartFrom(TWENTY_KWAC_TIERS, 35, 11, TierOk);
    assert PartFrom(TWENTY_KWAC_TIERS, 35, 10, TierOk);
  }

  lemma TwentyKwacFactsFrom4()
    requires PartFrom(TWENTY_KWAC_TIERS, 35, 10, TierOk)
    ensures PartFrom(TWENTY_KWAC_TIERS, 35, 4, TierOk)
  {
    assert PartFrom(TWENTY_KWAC_TIERS, 35, 9, TierOk);
    assert PartFrom(TWENTY_KWAC_TIERS, 35, 8, TierOk);
    assert PartFrom(TWENTY_KWAC_TIERS, 35, 7, TierOk);
    assert PartFrom(TWENTY_KWAC_TIERS, 35, 6, TierOk);
    assert PartFrom(TWENTY_KWAC_TIERS, 35, 5, TierOk);
    assert PartFrom(TWENTY_KWAC_TIERS, 35, 4, TierOk);
  }

  lemma TwentyKwacFactsFrom0()
    requires PartFrom(TWENTY_KWAC_TIERS, 35, 4, TierOk)
    ensures PartFrom(TWENTY_KWAC_TIERS, 35, 0, TierOk)
  {
    assert PartFrom(TWENTY_KWAC_TIERS, 35, 3, TierOk);
    assert PartFrom(TWENTY_KWAC_TIERS, 35, 2, TierOk);
    assert PartFrom(TWENTY_KWAC_TIERS, 35, 1, TierOk);
    assert PartFrom(TWENTY_KWAC_TIERS, 35, 0, TierOk);
  }

  lemma TwentyKwacFacts()
    ensures PartFrom(TWENTY_KWAC_TIERS, 35, 0, TierOk)
  {
    TwentyKwacFactsFrom10();
    TwentyKwacFactsFrom4();
    TwentyKwacFactsFrom0();
  }

  lemma EveryTierFacts()
    ensures forall i :: 0 <= i < |SYSTEM_PRICING| ==> TierFacts(i)
  {
    SinglePhaseFacts();
    ThreePhaseFacts();
    TwentyKwacFacts();
    assert |SINGLE_PHASE_TIERS| == 17 && |THREE_PHASE_TIERS| == 18 && |TWENTY_KWAC_TIERS| == 16;
    assert [] + SINGLE_PHASE_TIERS == SINGLE_PHASE_TIERS;
    AppendPart([], SINGLE_PHASE_TIERS, TierOk);
    assert Cheaper(SINGLE_PHASE_TIERS[16], THREE_PHASE_TIERS[0]);
    AppendPart(SINGLE_PHASE_TIERS, THREE_PHASE_TIERS, TierOk);
    var front := SINGLE_PHASE_TIERS + THREE_PHASE_TIERS;
    assert front[34] == THREE_PHASE_TIERS[17];
    assert Cheaper(front[34], TWENTY_KWAC_TIERS[0]);
    AppendPart(front, TWENTY_KWAC_TIERS, TierOk);
    forall i | 0 <= i < |SYSTEM_PRICING|
      ensures TierFacts(i)
    {
      if i > 0 {
        assert Cheaper(SYSTEM_PRICING[i - 1], SYSTEM_PRICING[i]);
      }
    }
  }

  /** `SYSTEM_PRICING[0].panels`: the smallest system sold has 6 panels. */
  function FirstTierPanels(): (r: int)
    ensures r == MIN_TIER_PANELS
  {
    PricingTableShape();
    SYSTEM_PRICING[0].panels
  }

  /** `SYSTEM_PRICING[SYSTEM_PRICING.length - 1].panels`: the largest has 56. */
  function LastTierPanels(): (r: int)
    ensures r == MAX_TIER_PANELS
  {
    PricingTableShape();
    SYSTEM_PRICING[|SYSTEM_PRICING| - 1].panels
  }

  /** One tier per panel count, consecutive and ascending from 6 to 56 panels. */
  lemma PricingTableShape()
    ensures |SYSTEM_PRICING| == MAX_TIER_PANELS - MIN_TIER_PANELS + 1
    ensures forall i :: 0 <= i < |SYSTEM_PRICING| ==> SYSTEM_PRICING[i].panels == MIN_TIER_PANELS + i
  {
    EveryTierFacts();
  }

  /** Each tier's kWp is its panel count times the panel wattage: 0.62 kW per panel. */
  lemma TierKwpMatchesPanels()
    ensures forall i :: 0 <= i < |SYSTEM_PRICING| ==>
      SYSTEM_PRICING[i].kwp == SYSTEM_PRICING[i].panels as real * PANEL_WATTAGE / 1000.0
    ensures PANEL_WATTAGE / 1000.0 == 0.62
  {
    EveryTierFacts();
  }

  /** Each tier's inverter is the one `InverterFor` names for its panel count. */
  lemma TierInverters()
    ensures forall i :: 0 <= i < |SYSTEM_PRICING| ==>
      SYSTEM_PRICING[i].inverterSize == InverterFor(SYSTEM_PRICING[i].panels)
  {
    EveryTierFacts();
    forall i | 0 <= i < |SYSTEM_PRICING|
      ensures SYSTEM_PRICING[i].inverterSize == InverterFor(SYSTEM_PRICING[i].panels)
    {
      assert TierFacts(i);
    }
  }

  function CashPrices(): (r: seq<real>)
    ensures |r| == |SYSTEM_PRICING|
    ensures forall i :: 0 <= i < |r| ==> r[i] == SYSTEM_PRICING[i].cashPrice
  {
    seq(|SYSTEM_PRICING|, i requires 0 <= i < |SYSTEM_PRICING| => SYSTEM_PRICING[i].cashPrice)
  }

  function CreditPrices(): (r: seq<real>)
    ensures |r| == |SYSTEM_PRICING|
    ensures forall i :: 0 <= i < |r| ==> r[i] == SYSTEM_PRICING[i].ccPrice
  {
    seq(|SYSTEM_PRICING|, i requires 0 <= i < |SYSTEM_PRICING| => SYSTEM_PRICING[i].ccPrice)
  }

  /** The cash price strictly increases with the panel count. */
  lemma CashPricesIncrease()
    ensures forall i, j :: 0 <= i < j < |SYSTEM_PRICING| ==>
      SYSTEM_PRICING[i].cashPrice < SYSTEM_PRICING[j].cashPrice
  {
    var cash := CashPrices();
    AdjacentPrices();
    assert forall i :: 0 < i < |cash| ==> cash[i - 1] < cash[i];
    AdjacentIncreaseIsGlobal(cash);
  }

  /** The 36-month instalment price strictly increases with the panel count. */
  lemma CreditPricesIncrease()
    ensures forall i, j :: 0 <= i < j < |SYSTEM_PRICING| ==>
      SYSTEM_PRICING[i].ccPrice < SYSTEM_PRICING[j].ccPrice
  {
    var cc := CreditPrices();
    AdjacentPrices();
    assert forall i :: 0 < i < |cc| ==> cc[i - 1] < cc[i];
    AdjacentIncreaseIsGlobal(cc);
  }

  /** Each tier costs more than the one before it, in cash and in instalments. */
  lemma AdjacentPrices()
    ensures forall i :: 0 < i < |SYSTEM_PRICING| ==>
      SYSTEM_PRICING[i - 1].cashPrice < SYSTEM_PRICING[i].cashPrice
      && SYSTEM_PRICING[i - 1].ccPrice < SYSTEM_PRICING[i].ccPrice
  {
    EveryTierFacts();
    forall i | 0 < i < |SYSTEM_PRICING|
      ensures SYSTEM_PRICING[i - 1].cashPrice < SYSTEM_PRICING[i].cashPrice
      ensures SYSTEM_PRICING[i - 1].ccPrice < SYSTEM_PRICING[i].ccPrice
    {
      assert TierFacts(i);
    }
  }

  /** In every tier the instalment price is above the cash price. */
  lemma CreditAboveCash()
    ensures forall i :: 0 <= i < |SYSTEM_PRICING| ==>
      SYSTEM_PRICING[i].cashPrice < SYSTEM_PRICING[i].ccPrice
  {
    EveryTierFacts();
  }

  /** The tier of a panel count in the supported range sits at `panels - 6`. */
  lemma TierAt(panels: int)
    requires MIN_TIER_PANELS <= panels <= MAX_TIER_PANELS
    ensures 0 <= panels - MIN_TIER_PANELS < |SYSTEM_PRICING|
    ensures SYSTEM_PRICING[panels - MIN_TIER_PANELS].panels == panels
    ensures SYSTEM_PRICING[panels - MIN_TIER_PANELS].inverterSize == InverterFor(panels)
  {
    PricingTableShape();
    TierInverters();
  }

  const THREE_PHASE: string := "Three Phase"

  predicate IsThreePhase(inverter: string) {
    Contains(inverter, THREE_PHASE)
  }

  /** The labels that name a three-phase inverter are exactly those of 23 panels and up. */
  lemma InverterPhase(panels: int)
    ensures IsThreePhase(InverterFor(panels)) <==> panels >= 23
  {
    var name := InverterFor(panels);
    if panels >= 23 {
      ContainsAt(name, THREE_PHASE, 8);
    } else {
      MissingChar(name, THREE_PHASE, 0);
    }
  }

  /** A tier's inverter is three-phase exactly when the tier has 23 panels or more. */
  lemma ThreePhaseFrom23Panels()
    ensures forall i :: 0 <= i < |SYSTEM_PRICING| ==>
      (IsThreePhase(SYSTEM_PRICING[i].inverterSize) <==> SYSTEM_PRICING[i].panels >= 23)
  {
    TierInverters();
    forall i | 0 <= i < |SYSTEM_PRICING|
      ensures IsThreePhase(SYSTEM_PRICING[i].inverterSize) <==> SYSTEM_PRICING[i].panels >= 23
    {
      InverterPhase(SYSTEM_PRICING[i].panels);
    }
  }
}
