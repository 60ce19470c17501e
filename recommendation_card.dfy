/**
 * The card that shows one recommendation (the `RecommendationCard`
 * component of src/components/PlanRecommender.tsx): how many roof angles
 * the card's inverter supports, and the table of neighbouring bills the
 * card simulates with the same system.
 */
module RecommendationCard {
  import opened Types
  import opened JsMath
  import opened Constants
  import opened Text

  // ---------------------------------------------------------------------
  // Roof angles
  // ---------------------------------------------------------------------

  /**
   * `getRoofSpecs` as written: the lower-cased label is tested for the
   * 5/8 kWac inverters first, then 10/12, then 15/20, with 2 as the
   * default. A label naming a 15 kWac inverter also contains "5 kwac", so
   * it never reaches the third test.
   */
  function RoofSpecsAsWritten(inverter: string): (r: int)
    ensures 2 <= r <= 4
  {
    var lower := ToLower(inverter);
    if Contains(lower, "5 kwac") || Contains(lower, "8 kwac") then 2
    else if Contains(lower, "10 kwac") || Contains(lower, "12 kwac") then 3
    else if Contains(lower, "15 kwac") || Contains(lower, "20 kwac") then 4
    else 2
  }

  /** Every label that names a 15 kWac inverter is read as a 5 kWac one. */
  lemma FifteenReadsAsFive(inverter: string)
    requires Contains(ToLower(inverter), "15 kwac")
    ensures Contains(ToLower(inverter), "5 kwac")
    ensures RoofSpecsAsWritten(inverter) == 2
  {
    ContainsTail(ToLower(inverter), "15 kwac", 1);
    assert "15 kwac"[1..] == "5 kwac";
  }

  /** The answer 4 is reached only through a "20 kwac" label. */
  lemma FourOnlyForTwenty(inverter: string)
    requires RoofSpecsAsWritten(inverter) == 4
    ensures Contains(ToLower(inverter), "20 kwac")
    ensures !Contains(ToLower(inverter), "15 kwac")
  {
    if Contains(ToLower(inverter), "15 kwac") {
      FifteenReadsAsFive(inverter);
    }
  }

  /** The 15 kWac three-phase inverter of the price table gets 2 roof angles, not 4. */
  lemma FifteenKwacReadsAsFive()
    ensures RoofSpecsAsWritten(INVERTER_15KW_THREE) == 2
  {
    var lower := ToLower(INVERTER_15KW_THREE);
    ContainsAt(lower, "15 kwac", 0);
    FifteenReadsAsFive(INVERTER_15KW_THREE);
  }

  /** As written, the 20 kWac three-phase label of the price table gets 4 roof angles. */
  lemma TwentyKwacReadsAsFour()
    ensures RoofSpecsAsWritten(INVERTER_20KW_THREE) == 4
  {
    assert '5' !in INVERTER_20KW_THREE && '8' !in INVERTER_20KW_THREE && '1' !in INVERTER_20KW_THREE;
    Lacks(INVERTER_20KW_THREE, "5 kwac", 0);
    Lacks(INVERTER_20KW_THREE, "8 kwac", 0);
    Lacks(INVERTER_20KW_THREE, "10 kwac", 0);
    Lacks(INVERTER_20KW_THREE, "12 kwac", 0);
    ContainsAt(ToLower(INVERTER_20KW_THREE), "20 kwac", 0);
  }

  /**
   * The roof angles as evidently intended: the 15/20 kWac test comes
   * first, so "15 kwac" is seen before the "5 kwac" inside it; the other
   * tests keep their order.
   */
  function RoofAngles(inverter: string): (r: int)
    ensures 2 <= r <= 4
  {
    var lower := ToLower(inverter);
    if Contains(lower, "15 kwac") || Contains(lower, "20 kwac") then 4
    else if Contains(lower, "5 kwac") || Contains(lower, "8 kwac") then 2
    else if Contains(lower, "10 kwac") || Contains(lower, "12 kwac") then 3
    else 2
  }

  /** The correction changes nothing on labels that name neither a 15 nor a 20 kWac inverter. */
  lemma RoofAnglesAgreeOffFifteen(inverter: string)
    requires !Contains(ToLower(inverter), "15 kwac") && !Contains(ToLower(inverter), "20 kwac")
    ensures RoofAngles(inverter) == RoofSpecsAsWritten(inverter)
  {
  }

  /** A digit the label lacks rules out every size whose name has that digit. */
  lemma Lacks(inverter: string, t: string, k: nat)
    requires k < |t| && '0' <= t[k] <= '9' && t[k] !in inverter
    ensures !Contains(ToLower(inverter), t)
  {
    LowerKeepsNonLetter(inverter, t[k]);
    MissingChar(ToLower(inverter), t, k);
  }

  /** The 5 and 8 kWac labels of the price table get 2 roof angles. */
  lemma RoofAnglesSmallInverters()
    ensures RoofAngles(INVERTER_5KW_SINGLE) == 2
    ensures RoofAngles(INVERTER_8KW_SINGLE) == 2
    ensures RoofAngles(INVERTER_8KW_SINGLE_ALT) == 2
  {
    assert '1' !in INVERTER_5KW_SINGLE && '0' !in INVERTER_5KW_SINGLE;
    Lacks(INVERTER_5KW_SINGLE, "15 kwac", 0);
    Lacks(INVERTER_5KW_SINGLE, "20 kwac", 1);
    Lacks(INVERTER_5KW_SINGLE, "10 kwac", 0);
    Lacks(INVERTER_5KW_SINGLE, "12 kwac", 0);
    assert '1' !in INVERTER_8KW_SINGLE && '0' !in INVERTER_8KW_SINGLE;
    Lacks(INVERTER_8KW_SINGLE, "15 kwac", 0);
    Lacks(INVERTER_8KW_SINGLE, "20 kwac", 1);
    Lacks(INVERTER_8KW_SINGLE, "10 kwac", 0);
    Lacks(INVERTER_8KW_SINGLE, "12 kwac", 0);
    assert '1' !in INVERTER_8KW_SINGLE_ALT && '0' !in INVERTER_8KW_SINGLE_ALT;
    Lacks(INVERTER_8KW_SINGLE_ALT, "15 kwac", 0);
    Lacks(INVERTER_8KW_SINGLE_ALT, "20 kwac", 1);
    Lacks(INVERTER_8KW_SINGLE_ALT, "10 kwac", 0);
    Lacks(INVERTER_8KW_SINGLE_ALT, "12 kwac", 0);
  }

  /** The 10 kWac three-phase label gets 3 roof angles. */
  lemma RoofAnglesTenKwac()
    ensures RoofAngles(INVERTER_10KW_THREE) == 3
  {
    assert '5' !in INVERTER_10KW_THREE && '2' !in INVERTER_10KW_THREE && '8' !in INVERTER_10KW_THREE;
    Lacks(INVERTER_10KW_THREE, "15 kwac", 1);
    Lacks(INVERTER_10KW_THREE, "20 kwac", 0);
    Lacks(INVERTER_10KW_THREE, "5 kwac", 0);
    Lacks(INVERTER_10KW_THREE, "8 kwac", 0);
    ContainsAt(ToLower(INVERTER_10KW_THREE), "10 kwac", 0);
  }

  /** The 12 kWac three-phase label gets 3 roof angles. */
  lemma RoofAnglesTwelveKwac()
    ensures RoofAngles(INVERTER_12KW_THREE) == 3
  {
    assert '5' !in INVERTER_12KW_THREE && '0' !in INVERTER_12KW_THREE && '8' !in INVERTER_12KW_THREE;
    Lacks(INVERTER_12KW_THREE, "15 kwac", 1);
    Lacks(INVERTER_12KW_THREE, "20 kwac", 1);
    Lacks(INVERTER_12KW_THREE, "5 kwac", 0);
    Lacks(INVERTER_12KW_THREE, "8 kwac", 0);
    ContainsAt(ToLower(INVERTER_12KW_THREE), "12 kwac", 0);
  }

  /** The 15 and 20 kWac three-phase labels get 4 roof angles. */
  lemma RoofAnglesLargeInverters()
    ensures RoofAngles(INVERTER_15KW_THREE) == 4
    ensures RoofAngles(INVERTER_20KW_THREE) == 4
  {
    ContainsAt(ToLower(INVERTER_15KW_THREE), "15 kwac", 0);
    ContainsAt(ToLower(INVERTER_20KW_THREE), "20 kwac", 0);
  }

  // ---------------------------------------------------------------------
  // Bill scenarios
  // ---------------------------------------------------------------------

  /** One line of the card's scenario table. */
  datatype ScenarioRow = ScenarioRow(bill: real, newBill: real, saved: real, pct: real)

  /** The current bill rounded to the nearest 100. */
  function Anchor(currentBill: real): (r: int)
    ensures r % 100 == 0
    ensures currentBill - 50.0 < r as real <= currentBill + 50.0
    ensures currentBill > 0.0 ==> r >= 0
    ensures r > 0 <==> currentBill >= 50.0
  {
    Round(currentBill / 100.0) * 100
  }

  /** The multiples of 100 from `lo * 100` to `hi * 100`, ascending. */
  function Hundreds(lo: int, hi: int): (r: seq<int>)
    ensures |r| == if hi < lo then 0 else hi - lo + 1
  {
    if hi < lo then [] else seq(hi - lo + 1, j => (lo + j) * 100)
  }

  lemma HundredsSnoc(lo: int, hi: int)
    requires lo <= hi + 1
    ensures Hundreds(lo, hi) + [(hi + 1) * 100] == Hundreds(lo, hi + 1)
  {
    var a := Hundreds(lo, hi) + [(hi + 1) * 100];
    var b := Hundreds(lo, hi + 1);
    assert |a| == |b|;
    forall j | 0 <= j < |a|
      ensures a[j] == b[j]
    {
    }
  }

  /**
   * The bills the card simulates: none without a positive current bill;
   * otherwise every positive multiple of 100 within 300 of the anchor.
   */
  function ScenarioBills(currentBill: real): (r: seq<int>)
  {
    if currentBill <= 0.0 then []
    else
      var k := Anchor(currentBill) / 100;
      Hundreds(if k - 3 >= 1 then k - 3 else 1, k + 3)
  }

  /**
   * The ladder is strictly ascending, made of positive multiples of 100,
   * holds exactly those within 300 of the anchor, always includes the three
   * rungs above the anchor, and has 3 to 7 rungs (at least 4 once the
   * bill reaches 50, when the anchor itself is positive).
   */
  lemma ScenarioBillsShape(currentBill: real)
    ensures currentBill <= 0.0 ==> ScenarioBills(currentBill) == []
    ensures currentBill > 0.0 ==>
      var bills := ScenarioBills(currentBill);
      var anchor := Anchor(currentBill);
      && (forall i, j :: 0 <= i < j < |bills| ==> bills[i] < bills[j])
      && (forall x :: x in bills <==> x > 0 && x % 100 == 0 && anchor - 300 <= x <= anchor + 300)
      && anchor + 100 in bills && anchor + 200 in bills && anchor + 300 in bills
      && 3 <= |bills| <= 7
      && (anchor > 0 <==> |bills| >= 4)
  {
    if currentBill > 0.0 {
      var bills := ScenarioBills(currentBill);
      var anchor := Anchor(currentBill);
      var k := anchor / 100;
      var lo := if k - 3 >= 1 then k - 3 else 1;
      assert anchor == k * 100;
      forall x
        ensures x in bills <==> x > 0 && x % 100 == 0 && anchor - 300 <= x <= anchor + 300
      {
        if x > 0 && x % 100 == 0 && anchor - 300 <= x <= anchor + 300 {
          assert bills[x / 100 - lo] == x;
        }
      }
      assert bills[k + 1 - lo] == anchor + 100;
      assert bills[k + 2 - lo] == anchor + 200;
      assert bills[k + 3 - lo] == anchor + 300;
    }
  }

  /**
   * One scenario: the usage for the bill, the simulation of the card's
   * system at that usage, and the saving as a percentage of the bill.
   */
  function ScenarioFor(e: Engine, bill: real, daytimePercent: real, panels: int, batteries: int): (r: ScenarioRow)
    requires bill > 0.0
    ensures var sim := e.simulateSolar(e.getKwhFromBill(bill), daytimePercent, panels, batteries);
      && r.bill == bill
      && r.newBill == sim.newBill.finalTotal
      && r.saved == sim.monthlySavings
      && r.pct * bill == 100.0 * r.saved
  {
    var kwh := e.getKwhFromBill(bill);
    var sim := e.simulateSolar(kwh, daytimePercent, panels, batteries);
    ScenarioRow(bill, sim.newBill.finalTotal, sim.monthlySavings, (sim.monthlySavings / bill) * 100.0)
  }

  /**
   * `scenarios`: builds the ladder of bills with the source's two loops
   * and the anchor between them, then simulates the card's system at each.
   */
  method Scenarios(e: Engine, currentBill: real, daytimePercent: real, panels: int, batteries: int)
    returns (rows: seq<ScenarioRow>)
    ensures |rows| == |ScenarioBills(currentBill)|
    ensures forall j :: 0 <= j < |rows| ==>
      ScenarioBills(currentBill)[j] > 0 &&
      rows[j] == ScenarioFor(e, ScenarioBills(currentBill)[j] as real, daytimePercent, panels, batteries)
  {
    if currentBill <= 0.0 {
      return [];
    }
    var anchor := Round(currentBill / 100.0) * 100;
    ghost var k := anchor / 100;
    ghost var lo := if k - 3 >= 1 then k - 3 else 1;
    assert anchor == Anchor(currentBill) == k * 100;

    var bills: seq<int> := [];
    var i := 3;
    while i >= 1
      invariant 0 <= i <= 3
      invariant bills == Hundreds(lo, if k - i - 1 >= lo - 1 then k - i - 1 else lo - 1)
    {
      var val := anchor - i * 100;
      if val > 0 {
        HundredsSnoc(lo, k - i - 1);
        bills := bills + [val];
      }
      i := i - 1;
    }
    if anchor > 0 {
      HundredsSnoc(lo, k - 1);
      bills := bills + [anchor];
    }
    assert bills == Hundreds(lo, k);
    i := 1;
    while i <= 3
      invariant 1 <= i <= 4
      invariant bills == Hundreds(lo, k + i - 1)
    {
      HundredsSnoc(lo, k + i - 1);
      bills := bills + [anchor + i * 100];
      i := i + 1;
    }
    assert bills == ScenarioBills(currentBill);
    rows := seq(|bills|, j requires 0 <= j < |bills| =>
      ScenarioFor(e, bills[j] as real, daytimePercent, panels, batteries));
  }
}
