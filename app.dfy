/**
 * The calculator page (src/App.tsx) beyond the bill/usage binding: the
 * share of the original bill that solar saves.
 */
module App {
  import opened Types

  /**
   * `savingsPercent`: the monthly savings as a percentage of the original
   * bill, or 0 when there is no positive original bill to divide by.
   */
  function SavingsPercent(sim: SimulationResult): (r: real)
    ensures sim.originalBill.finalTotal <= 0.0 ==> r == 0.0
    ensures sim.originalBill.finalTotal > 0.0 ==> r * sim.originalBill.finalTotal == 100.0 * sim.monthlySavings
  {
    if sim.originalBill.finalTotal > 0.0 then
      (sim.monthlySavings / sim.originalBill.finalTotal) * 100.0
    else
      0.0
  }

  /**
   * When the savings are the drop from the original to the new bill and the
   * new bill is not negative, the percentage lies between 0 and 100 exactly
   * when the bill did not go up, and reaches 100 exactly when the new bill
   * is zero.
   */
  lemma SavingsPercentBounds(sim: SimulationResult)
    requires sim.originalBill.finalTotal > 0.0
    requires sim.monthlySavings == sim.originalBill.finalTotal - sim.newBill.finalTotal
    requires sim.newBill.finalTotal >= 0.0
    ensures SavingsPercent(sim) <= 100.0
    ensures SavingsPercent(sim) >= 0.0 <==> sim.newBill.finalTotal <= sim.originalBill.finalTotal
    ensures SavingsPercent(sim) == 100.0 <==> sim.newBill.finalTotal == 0.0
  {
    var o := sim.originalBill.finalTotal;
    var r := SavingsPercent(sim);
    assert r * o == 100.0 * (o - sim.newBill.finalTotal);
    assert r * o == 100.0 * o - 100.0 * sim.newBill.finalTotal;
    if r >= 0.0 {
      assert r * o >= 0.0;
    }
    if r < 100.0 {
      assert r * o < 100.0 * o;
    }
  }
}
