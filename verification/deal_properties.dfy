/** Properties relating the KPI of different scenarios and the KPI to the deal's inputs. */
module DealProperties {
  import opened Outcomes
  import opened Series
  import opened Inventory
  import opened Deal

  /** Two scenarios with the same schedule and demand share their purchases and average inventory. */
  lemma SameSchedule(s: Scenario, s': Scenario, a: Assumptions)
    requires |s.monthlyVolume| >= MonthsPerYear
    requires s'.monthlyVolume == s.monthlyVolume && s'.expectedMonthlyDemand == s.expectedMonthlyDemand
    ensures Simulate(s', a).value
      == Roll(s', a, Sum(s.monthlyVolume), AverageInventory(a.initialOledInventory, ScenarioLevels(s, a)))
  {
    assert ScenarioLevels(s', a) == ScenarioLevels(s, a);
  }

  /** The contribution form of profit, at the roll-up level. */
  lemma RollContributionForm(s: Scenario, a: Assumptions, purchases: real, avg: real)
    ensures var k := Roll(s, a, purchases, avg);
      k.profit
      == k.unitsSold * (s.sellingPrice - a.otherVarCostPerUnit - a.defectRateField * a.warrantyCostPerUnit
                        + (if s.customization then a.customizationValuePerUnit else 0.0))
         - purchases * k.netUnitPrice * (1.0 - s.termsOfPaymentDays as real * a.costOfCapital / 360.0)
         - a.fixedCostYear - k.inventoryCost
         + s.techSupportWeeks * a.valuePerEngineerWeek
         + (if s.useEcolowrap then a.ecolowrapGrant else 0.0)
  {
    var k := Roll(s, a, purchases, avg);
    var u := k.unitsSold;
    var custom := if s.customization then a.customizationValuePerUnit else 0.0;
    assert k.customizationBenefit == u * custom;
    assert k.revenue - k.otherVarCost - k.warrantyCost + k.customizationBenefit
      == u * (s.sellingPrice - a.otherVarCostPerUnit - a.defectRateField * a.warrantyCostPerUnit + custom);
    assert k.oledCost - k.financingBenefit
      == purchases * k.netUnitPrice * (1.0 - s.termsOfPaymentDays as real * a.costOfCapital / 360.0);
  }

  /**
   * Profit written per unit sold: each unit contributes its price less the other
   * variable cost and expected warranty cost (plus the customization value when
   * agreed); purchases cost the net price less the supplier-credit saving.
   */
  lemma ProfitContributionForm(s: Scenario, a: Assumptions)
    requires |s.monthlyVolume| >= MonthsPerYear
    ensures var k := Simulate(s, a).value;
      k.profit
      == k.unitsSold * (s.sellingPrice - a.otherVarCostPerUnit - a.defectRateField * a.warrantyCostPerUnit
                        + (if s.customization then a.customizationValuePerUnit else 0.0))
         - k.totalPurchases * k.netUnitPrice * (1.0 - s.termsOfPaymentDays as real * a.costOfCapital / 360.0)
         - a.fixedCostYear - k.inventoryCost
         + s.techSupportWeeks * a.valuePerEngineerWeek
         + (if s.useEcolowrap then a.ecolowrapGrant else 0.0)
  {
    RollContributionForm(s, a, Sum(s.monthlyVolume),
      AverageInventory(a.initialOledInventory, ScenarioLevels(s, a)));
  }

  /** The Ecolowrap and customization choices reach no line of the roll-up but their own benefit. */
  lemma RollServiceTermsOnlyBenefit(s: Scenario, a: Assumptions, purchases: real, avg: real, eco: bool, custom: bool)
    ensures var k := Roll(s, a, purchases, avg);
      var k' := Roll(s.(useEcolowrap := eco, customization := custom), a, purchases, avg);
      k'.unitsSold == k.unitsSold
      && k'.revenue == k.revenue && k'.oledCost == k.oledCost && k'.otherVarCost == k.otherVarCost
      && k'.fixedCost == k.fixedCost && k'.warrantyCost == k.warrantyCost && k'.inventoryCost == k.inventoryCost
      && k'.financingBenefit == k.financingBenefit && k'.techSupportBenefit == k.techSupportBenefit
  {
    var k := Roll(s, a, purchases, avg);
    var k' := Roll(s.(useEcolowrap := eco, customization := custom), a, purchases, avg);
    assert k'.unitsSold == k.unitsSold && k'.netUnitPrice == k.netUnitPrice;
  }

  /** At the roll-up level, the Ecolowrap choice moves profit by the grant alone. */
  lemma RollEcolowrap(s: Scenario, a: Assumptions, purchases: real, avg: real)
    ensures Roll(s.(useEcolowrap := true), a, purchases, avg).profit
      == Roll(s.(useEcolowrap := false), a, purchases, avg).profit + a.ecolowrapGrant
  {
    var without := s.(useEcolowrap := false);
    RollServiceTermsOnlyBenefit(without, a, purchases, avg, true, s.customization);
    assert without.(useEcolowrap := true, customization := s.customization) == s.(useEcolowrap := true);
  }

  /** Choosing Ecolowrap changes profit by exactly the grant and nothing else. */
  lemma EcolowrapAddsGrant(s: Scenario, a: Assumptions)
    requires |s.monthlyVolume| >= MonthsPerYear
    ensures Simulate(s.(useEcolowrap := true), a).value.profit
      == Simulate(s.(useEcolowrap := false), a).value.profit + a.ecolowrapGrant
  {
    SameSchedule(s, s.(useEcolowrap := true), a);
    SameSchedule(s, s.(useEcolowrap := false), a);
    RollEcolowrap(s, a, Sum(s.monthlyVolume), AverageInventory(a.initialOledInventory, ScenarioLevels(s, a)));
  }

  /** At the roll-up level, customization moves profit by its value on the units sold alone. */
  lemma RollCustomization(s: Scenario, a: Assumptions, purchases: real, avg: real)
    ensures var with := Roll(s.(customization := true), a, purchases, avg);
      with.profit == Roll(s.(customization := false), a, purchases, avg).profit
                     + with.unitsSold * a.customizationValuePerUnit
  {
    var without := s.(customization := false);
    RollServiceTermsOnlyBenefit(without, a, purchases, avg, s.useEcolowrap, true);
    assert without.(useEcolowrap := s.useEcolowrap, customization := true) == s.(customization := true);
  }

  /** Agreeing customization adds its per-unit value on every unit sold. */
  lemma CustomizationAddsValuePerUnit(s: Scenario, a: Assumptions)
    requires |s.monthlyVolume| >= MonthsPerYear
    ensures var with := Simulate(s.(customization := true), a).value;
      with.profit == Simulate(s.(customization := false), a).value.profit
                     + with.unitsSold * a.customizationValuePerUnit
  {
    SameSchedule(s, s.(customization := true), a);
    SameSchedule(s, s.(customization := false), a);
    RollCustomization(s, a, Sum(s.monthlyVolume), AverageInventory(a.initialOledInventory, ScenarioLevels(s, a)));
  }

  /** At the roll-up level, the OLED bill and financing depend only on purchases, price, discount and terms. */
  lemma RollPurchasingIgnoresMarket(s: Scenario, s': Scenario, a: Assumptions, purchases: real, avg: real, avg': real)
    requires s'.grossPrice == s.grossPrice && s'.discountPct == s.discountPct
    requires s'.termsOfPaymentDays == s.termsOfPaymentDays
    ensures Roll(s', a, purchases, avg').oledCost == Roll(s, a, purchases, avg).oledCost
    ensures Roll(s', a, purchases, avg').financingBenefit == Roll(s, a, purchases, avg).financingBenefit
  {
    var k := Roll(s, a, purchases, avg);
    var k' := Roll(s', a, purchases, avg');
    assert k'.netUnitPrice == k.netUnitPrice && k'.oledCost == k.oledCost;
  }

  /** The OLED bill and the financing benefit depend on the purchases, not on demand or the selling price. */
  lemma OledCostIgnoresMarket(s: Scenario, a: Assumptions, demand: real, sellingPrice: real)
    requires |s.monthlyVolume| >= MonthsPerYear
    ensures var k := Simulate(s, a).value;
      var k' := Simulate(s.(expectedMonthlyDemand := demand, sellingPrice := sellingPrice), a).value;
      k'.oledCost == k.oledCost && k'.financingBenefit == k.financingBenefit
  {
    var s' := s.(expectedMonthlyDemand := demand, sellingPrice := sellingPrice);
    RollPurchasingIgnoresMarket(s, s', a, Sum(s.monthlyVolume),
      AverageInventory(a.initialOledInventory, ScenarioLevels(s, a)),
      AverageInventory(a.initialOledInventory, ScenarioLevels(s', a)));
  }

  /** Payment terms reach no line of the roll-up except the financing benefit. */
  lemma RollTermsOnlyFinance(s: Scenario, a: Assumptions, purchases: real, avg: real, days: int)
    ensures var k := Roll(s, a, purchases, avg);
      var k' := Roll(s.(termsOfPaymentDays := days), a, purchases, avg);
      k'.revenue == k.revenue && k'.oledCost == k.oledCost && k'.otherVarCost == k.otherVarCost
      && k'.fixedCost == k.fixedCost && k'.warrantyCost == k.warrantyCost && k'.inventoryCost == k.inventoryCost
      && k'.techSupportBenefit == k.techSupportBenefit && k'.customizationBenefit == k.customizationBenefit
      && k'.ecolowrapBenefit == k.ecolowrapBenefit
  {
    var k := Roll(s, a, purchases, avg);
    var k' := Roll(s.(termsOfPaymentDays := days), a, purchases, avg);
    assert k'.unitsSold == k.unitsSold && k'.netUnitPrice == k.netUnitPrice;
  }

  /** At the roll-up level, longer payment terms change profit only through a larger financing benefit. */
  lemma RollLongerTerms(s: Scenario, a: Assumptions, purchases: real, avg: real, longerDays: int)
    requires s.termsOfPaymentDays <= longerDays
    requires Roll(s, a, purchases, avg).oledCost >= 0.0 && a.costOfCapital >= 0.0
    ensures Roll(s, a, purchases, avg).profit <= Roll(s.(termsOfPaymentDays := longerDays), a, purchases, avg).profit
  {
    var short := Roll(s, a, purchases, avg);
    RollTermsOnlyFinance(s, a, purchases, avg, longerDays);
    FinancingGrowsWithTerms(short.oledCost, s.termsOfPaymentDays, longerDays, a.costOfCapital);
  }

  /** Longer payment terms never lower profit while the OLED bill and the cost of capital are non-negative. */
  lemma LongerTermsNeverHurt(s: Scenario, a: Assumptions, longerDays: int)
    requires |s.monthlyVolume| >= MonthsPerYear
    requires s.termsOfPaymentDays <= longerDays
    requires Simulate(s, a).value.oledCost >= 0.0 && a.costOfCapital >= 0.0
    ensures Simulate(s, a).value.profit <= Simulate(s.(termsOfPaymentDays := longerDays), a).value.profit
  {
    SameSchedule(s, s.(termsOfPaymentDays := longerDays), a);
    RollLongerTerms(s, a, Sum(s.monthlyVolume),
      AverageInventory(a.initialOledInventory, ScenarioLevels(s, a)), longerDays);
  }

  /** The financing benefit grows with the payment days when the bill and the rate are non-negative. */
  lemma FinancingGrowsWithTerms(oledCost: real, days: int, longerDays: int, costOfCapital: real)
    requires days <= longerDays && oledCost >= 0.0 && costOfCapital >= 0.0
    ensures FinancingBenefit(oledCost, days, costOfCapital) <= FinancingBenefit(oledCost, longerDays, costOfCapital)
  {
    var extra := (longerDays - days) as real;
    NonNegativeProduct(oledCost, extra);
    NonNegativeProduct(oledCost * extra, costOfCapital);
  }

  /** With no demand and a non-negative stock, nothing is sold and the margin guard yields zero. */
  lemma ZeroDemandSellsNothing(s: Scenario, a: Assumptions)
    requires |s.monthlyVolume| >= MonthsPerYear
    requires s.expectedMonthlyDemand == 0.0
    requires a.initialOledInventory + Sum(s.monthlyVolume) >= 0.0
    ensures Simulate(s, a).value.unitsSold == 0.0
    ensures Simulate(s, a).value.marginPerUnit == 0.0
    ensures Simulate(s, a).value.revenue == 0.0
  {
  }

  /**
   * When the first 12 months each buy exactly the monthly demand, the stock
   * stays at the opening level all year and the inventory cost is the capital
   * cost of holding exactly that stock.
   */
  lemma SteadyScheduleInventoryCost(s: Scenario, a: Assumptions)
    requires |s.monthlyVolume| >= MonthsPerYear
    requires a.initialOledInventory >= 0.0
    requires forall m :: 0 <= m < MonthsPerYear ==> s.monthlyVolume[m] == s.expectedMonthlyDemand
    ensures var k := Simulate(s, a).value;
      k.inventoryCost == a.initialOledInventory * k.netUnitPrice * a.costOfCapital
  {
    SteadyScheduleAverage(a.initialOledInventory, s.monthlyVolume[..MonthsPerYear], s.expectedMonthlyDemand);
  }

  /**
   * With the program's own assumptions (500 units on hand, 10% cost of capital),
   * a steady schedule costs the capital tied up in 50 OLEDs at the net price.
   */
  lemma DefaultSteadyInventoryCost(s: Scenario)
    requires |s.monthlyVolume| >= MonthsPerYear
    requires forall m :: 0 <= m < MonthsPerYear ==> s.monthlyVolume[m] == s.expectedMonthlyDemand
    ensures Simulate(s, Defaults).value.inventoryCost == 50.0 * NetUnitPrice(s.grossPrice, s.discountPct)
  {
    SteadyScheduleInventoryCost(s, Defaults);
  }

  /** The inventory cost is never negative for a non-negative opening stock, price and rate. */
  lemma InventoryCostNonNegative(s: Scenario, a: Assumptions)
    requires |s.monthlyVolume| >= MonthsPerYear
    requires a.initialOledInventory >= 0.0 && a.costOfCapital >= 0.0
    requires NetUnitPrice(s.grossPrice, s.discountPct) >= 0.0
    ensures Simulate(s, a).value.inventoryCost >= 0.0
  {
    var levels := ScenarioLevels(s, a);
    SumLowerBound(levels, 0.0);
    var avg := AverageInventory(a.initialOledInventory, levels);
    NonNegativeProduct(avg, NetUnitPrice(s.grossPrice, s.discountPct));
    NonNegativeProduct(avg * NetUnitPrice(s.grossPrice, s.discountPct), a.costOfCapital);
  }
}
