/**
 * The KPI roll-up of one negotiated OLED supply deal, seen from the buyer:
 * units sold, purchase cost at the discounted price, the other cost lines,
 * the financing benefit of supplier credit, the service-term benefits, and
 * the resulting profit and margin. The program's module-level constants are
 * explicit, immutable `Assumptions` here.
 */
module Deal {
  import opened Outcomes
  import opened Series
  import opened Inventory

  /** The year-wide figures the program keeps as module constants; four of them the sidebar can override. */
  datatype Assumptions = Assumptions(
    otherVarCostPerUnit: real,       // euro per unit sold, every component except the OLED
    fixedCostYear: real,             // euro per year
    defectRateField: real,           // share of sold units returned under warranty
    warrantyCostPerUnit: real,       // euro per defective unit
    costOfCapital: real,             // annual rate, 0.10 for 10%
    initialOledInventory: real,      // OLED units on hand on January 1
    ecolowrapGrant: real,            // one-off euro grant for using Ecolowrap
    valuePerEngineerWeek: real,      // euro per engineer-week of technical support
    customizationValuePerUnit: real) // extra euro margin per unit sold with customization

  /** The values the program starts from. */
  const Defaults: Assumptions :=
    Assumptions(257.4, 14800000.0, 0.02, 125.0, 0.10, 500.0, 200000.0, 10000.0, 5.0)

  /** The negotiated terms of one scenario, plus the market figures it is evaluated against. */
  datatype Scenario = Scenario(
    name: string,
    monthlyVolume: seq<real>,        // OLED units bought each month, January first
    grossPrice: real,                // euro per unit before discount
    discountPct: real,               // percent off the gross price
    termsOfPaymentDays: int,
    useEcolowrap: bool,
    techSupportWeeks: real,
    customization: bool,
    incoterm: string,                // a label only
    doaReplacement: string,          // a label only: no dead-on-arrival logic exists
    expectedMonthlyDemand: real,
    sellingPrice: real)

  /** The KPI record of one scenario; money in euro (display scaling is left to the caller). */
  datatype Kpis = Kpis(
    scenario: string,
    unitsSold: real,
    totalPurchases: real,
    netUnitPrice: real,
    revenue: real,
    oledCost: real,
    otherVarCost: real,
    fixedCost: real,
    warrantyCost: real,
    inventoryCost: real,
    financingBenefit: real,
    techSupportBenefit: real,
    customizationBenefit: real,
    ecolowrapBenefit: real,
    profit: real,
    marginPerUnit: real,
    termsOfPaymentDays: int,
    incoterm: string,
    doaReplacement: string,
    usesEcolowrap: bool,
    customization: bool,
    techSupportWeeks: real)

  /** The gross price less the negotiated percentage of itself. */
  function NetUnitPrice(grossPrice: real, discountPct: real): real
  {
    grossPrice * (1.0 - discountPct / 100.0)
  }

  /** A discount takes its percentage off the gross price: none keeps it, 100% makes it free. */
  lemma NetUnitPriceDiscounts(grossPrice: real, discountPct: real)
    ensures NetUnitPrice(grossPrice, discountPct) == grossPrice - grossPrice * discountPct / 100.0
    ensures discountPct == 0.0 ==> NetUnitPrice(grossPrice, discountPct) == grossPrice
    ensures discountPct == 100.0 ==> NetUnitPrice(grossPrice, discountPct) == 0.0
    ensures grossPrice >= 0.0 && 0.0 <= discountPct <= 100.0 ==>
      0.0 <= NetUnitPrice(grossPrice, discountPct) <= grossPrice
  {
    if grossPrice >= 0.0 && 0.0 <= discountPct <= 100.0 {
      NonNegativeProduct(grossPrice, 1.0 - discountPct / 100.0);
      NonNegativeProduct(grossPrice, discountPct / 100.0);
    }
  }

  /** Units sold: the year's demand, unless the opening stock plus all purchases is smaller. */
  function UnitsSold(monthlyDemand: real, openingStock: real, totalPurchases: real): (sold: real)
    ensures sold <= MonthsPerYear as real * monthlyDemand
    ensures sold <= openingStock + totalPurchases
    ensures sold == MonthsPerYear as real * monthlyDemand || sold == openingStock + totalPurchases
  {
    var totalDemand := monthlyDemand * MonthsPerYear as real;
    var available := openingStock + totalPurchases;
    if available < totalDemand then available else totalDemand
  }

  /**
   * Supplier credit valued at the cost of capital: the average payable is the
   * annual purchase value times the payment days over a 360-day year.
   */
  function FinancingBenefit(oledCost: real, termsDays: int, costOfCapital: real): real
  {
    var avgPayable := oledCost * (termsDays as real / 360.0);
    avgPayable * costOfCapital
  }

  /** The benefit is cost x days x rate over a 360-day year: nothing for cash terms, never negative otherwise. */
  lemma FinancingBenefitValue(oledCost: real, termsDays: int, costOfCapital: real)
    ensures 360.0 * FinancingBenefit(oledCost, termsDays, costOfCapital)
      == oledCost * termsDays as real * costOfCapital
    ensures termsDays == 0 ==> FinancingBenefit(oledCost, termsDays, costOfCapital) == 0.0
    ensures oledCost >= 0.0 && termsDays >= 0 && costOfCapital >= 0.0 ==>
      FinancingBenefit(oledCost, termsDays, costOfCapital) >= 0.0
  {
    if oledCost >= 0.0 && termsDays >= 0 && costOfCapital >= 0.0 {
      NonNegativeProduct(oledCost, termsDays as real / 360.0);
      NonNegativeProduct(oledCost * (termsDays as real / 360.0), costOfCapital);
    }
  }

  /** Products of non-negative factors are non-negative. */
  lemma NonNegativeProduct(x: real, y: real)
    requires x >= 0.0 && y >= 0.0
    ensures x * y >= 0.0
  {
  }

  /** Profit per unit sold, defined as zero rather than dividing when nothing is sold. */
  function MarginPerUnit(profit: real, unitsSold: real): real
  {
    if unitsSold > 0.0 then profit / unitsSold else 0.0
  }

  /** The margin spread over the units sold gives back the profit; with no units sold it is zero. */
  lemma MarginRecoversProfit(profit: real, unitsSold: real)
    ensures unitsSold > 0.0 ==> MarginPerUnit(profit, unitsSold) * unitsSold == profit
    ensures unitsSold <= 0.0 ==> MarginPerUnit(profit, unitsSold) == 0.0
  {
  }

  /** The labels and flags of the scenario appear unchanged in its KPI record. */
  predicate CarriesTerms(s: Scenario, k: Kpis)
  {
    k.scenario == s.name
    && k.termsOfPaymentDays == s.termsOfPaymentDays
    && k.incoterm == s.incoterm
    && k.doaReplacement == s.doaReplacement
    && k.usesEcolowrap == s.useEcolowrap
    && k.customization == s.customization
    && k.techSupportWeeks == s.techSupportWeeks
  }

  /** Profit is revenue less the five cost lines plus the four benefit lines. */
  predicate ProfitBalances(k: Kpis)
  {
    k.profit == k.revenue
      - k.oledCost - k.otherVarCost - k.fixedCost - k.warrantyCost - k.inventoryCost
      + k.financingBenefit + k.techSupportBenefit + k.customizationBenefit + k.ecolowrapBenefit
  }

  /** The 12 month-end OLED levels the scenario's inventory cost is computed from. */
  function ScenarioLevels(s: Scenario, a: Assumptions): seq<real>
    requires |s.monthlyVolume| >= MonthsPerYear
  {
    Levels(a.initialOledInventory, s.monthlyVolume[..MonthsPerYear], s.expectedMonthlyDemand)
  }

  /**
   * The P&L roll-up of one scenario, given its total purchases and its
   * average OLED inventory over the year.
   */
  function Roll(s: Scenario, a: Assumptions, totalPurchases: real, avgInventory: real): (k: Kpis)
    ensures CarriesTerms(s, k) && ProfitBalances(k)
    ensures k.totalPurchases == totalPurchases
    ensures k.unitsSold == UnitsSold(s.expectedMonthlyDemand, a.initialOledInventory, totalPurchases)
    ensures k.unitsSold <= MonthsPerYear as real * s.expectedMonthlyDemand
    ensures k.unitsSold <= a.initialOledInventory + totalPurchases
    ensures k.netUnitPrice == NetUnitPrice(s.grossPrice, s.discountPct)
    ensures k.oledCost == totalPurchases * k.netUnitPrice
    ensures k.revenue == k.unitsSold * s.sellingPrice
    ensures k.otherVarCost == k.unitsSold * a.otherVarCostPerUnit
    ensures k.fixedCost == a.fixedCostYear
    ensures k.warrantyCost == k.unitsSold * a.defectRateField * a.warrantyCostPerUnit
    ensures k.inventoryCost == avgInventory * k.netUnitPrice * a.costOfCapital
    ensures k.financingBenefit == FinancingBenefit(k.oledCost, s.termsOfPaymentDays, a.costOfCapital)
    ensures k.techSupportBenefit == s.techSupportWeeks * a.valuePerEngineerWeek
    ensures k.customizationBenefit == if s.customization then k.unitsSold * a.customizationValuePerUnit else 0.0
    ensures k.ecolowrapBenefit == if s.useEcolowrap then a.ecolowrapGrant else 0.0
    ensures k.marginPerUnit == MarginPerUnit(k.profit, k.unitsSold)
  {
    var unitsSold := UnitsSold(s.expectedMonthlyDemand, a.initialOledInventory, totalPurchases);
    var net := NetUnitPrice(s.grossPrice, s.discountPct);
    var revenue := unitsSold * s.sellingPrice;
    var oledCost := totalPurchases * net;
    var otherVarCost := unitsSold * a.otherVarCostPerUnit;
    var fixedCost := a.fixedCostYear;
    var warrantyCost := unitsSold * a.defectRateField * a.warrantyCostPerUnit;
    var inventoryCost := avgInventory * net * a.costOfCapital;
    var financing := FinancingBenefit(oledCost, s.termsOfPaymentDays, a.costOfCapital);
    var techSupport := s.techSupportWeeks * a.valuePerEngineerWeek;
    var customizationBenefit := if s.customization then unitsSold * a.customizationValuePerUnit else 0.0;
    var ecolowrapBenefit := if s.useEcolowrap then a.ecolowrapGrant else 0.0;
    var profit := revenue - oledCost - otherVarCost - fixedCost - warrantyCost - inventoryCost
      + financing + techSupport + customizationBenefit + ecolowrapBenefit;
    Kpis(
      s.name, unitsSold, totalPurchases, net, revenue, oledCost, otherVarCost, fixedCost,
      warrantyCost, inventoryCost, financing, techSupport, customizationBenefit, ecolowrapBenefit,
      profit, MarginPerUnit(profit, unitsSold),
      s.termsOfPaymentDays, s.incoterm, s.doaReplacement, s.useEcolowrap, s.customization,
      s.techSupportWeeks)
  }

  /**
   * All KPI of one scenario. Reading the schedule fails at the first missing
   * month when it has fewer than 12 entries. Otherwise the record is the
   * roll-up of the purchases of every entry and of the 13-point average of
   * the inventory simulated over the first 12 entries only.
   */
  function Simulate(s: Scenario, a: Assumptions): (r: Result<Kpis, SimError>)
    ensures r.Failure? <==> |s.monthlyVolume| < MonthsPerYear
    ensures r.Failure? ==> r.error == MissingMonth(|s.monthlyVolume|)
    ensures r.Success? ==>
      r.value == Roll(s, a, Sum(s.monthlyVolume), AverageInventory(a.initialOledInventory, ScenarioLevels(s, a)))
    ensures r.Success? ==> CarriesTerms(s, r.value) && ProfitBalances(r.value)
    ensures r.Success? ==> r.value.totalPurchases == Sum(s.monthlyVolume)
    ensures r.Success? ==>
      r.value.unitsSold == UnitsSold(s.expectedMonthlyDemand, a.initialOledInventory, Sum(s.monthlyVolume))
    ensures r.Success? ==>
      r.value.inventoryCost == AverageInventory(a.initialOledInventory, ScenarioLevels(s, a)) * r.value.netUnitPrice * a.costOfCapital
  {
    if |s.monthlyVolume| < MonthsPerYear then
      Failure(MissingMonth(|s.monthlyVolume|))
    else
      Success(Roll(s, a, Sum(s.monthlyVolume), AverageInventory(a.initialOledInventory, ScenarioLevels(s, a))))
  }
}
