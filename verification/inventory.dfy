/**
 * The OLED inventory simulation of `simulate_scenario`: starting from the
 * opening stock, each month adds that month's purchase and draws down the
 * expected monthly demand, and a negative balance is floored at zero (the
 * shortfall is dropped, not carried as backlog). The average inventory is
 * taken over 13 points: the opening stock and the 12 month-end levels.
 */
module Inventory {
  import opened Outcomes
  import opened Series

  /** The simulation always runs over one year of monthly periods. */
  const MonthsPerYear: nat := 12

  /** Number of points in the inventory average: the opening balance plus 12 month-ends. */
  const AveragePoints: real := 13.0

  /** The one way the simulation can fail: the schedule has no entry for a month it reads. */
  datatype SimError = MissingMonth(month: nat)

  /** One month of carry-forward: the least non-negative stock not below the running balance. */
  function Carry(prev: real, purchase: real, demand: real): (next: real)
    ensures next >= 0.0
    ensures next >= prev + purchase - demand
    ensures next == 0.0 || next == prev + purchase - demand
  {
    var balance := prev + purchase - demand;
    if balance < 0.0 then 0.0 else balance
  }

  /** The stock at the end of the last simulated month (the opening stock before any month). */
  function Closing(opening: real, levels: seq<real>): real
  {
    if |levels| == 0 then opening else levels[|levels| - 1]
  }

  /** The month-end inventory levels for a schedule of purchases against a constant demand. */
  function Levels(opening: real, volumes: seq<real>, demand: real): (levels: seq<real>)
    ensures |levels| == |volumes|
    ensures forall m :: 0 <= m < |levels| ==> levels[m] >= 0.0
    ensures |levels| > 0 ==> levels[0] == Carry(opening, volumes[0], demand)
    ensures forall m :: 0 < m < |levels| ==> levels[m] == Carry(levels[m - 1], volumes[m], demand)
    decreases |volumes|
  {
    if |volumes| == 0 then []
    else
      var init := volumes[..|volumes| - 1];
      var before := Levels(opening, init, demand);
      assert forall m :: 0 <= m < |init| ==> init[m] == volumes[m];
      before + [Carry(Closing(opening, before), volumes[|volumes| - 1], demand)]
  }

  /** Mean of the opening stock and the month-end levels, always over 13 points. */
  function AverageInventory(opening: real, levels: seq<real>): real
  {
    (opening + Sum(levels)) / AveragePoints
  }

  /**
   * The monthly loop as the program runs it: month m reads `volume[m]`, so a
   * schedule shorter than 12 months stops at the first missing month; entries
   * beyond the twelfth are never read.
   */
  method SimulateInventory(opening: real, volume: seq<real>, demand: real)
    returns (r: Result<seq<real>, SimError>)
    ensures r.Failure? <==> |volume| < MonthsPerYear
    ensures r.Failure? ==> r.error == MissingMonth(|volume|)
    ensures r.Success? ==> r.value == Levels(opening, volume[..MonthsPerYear], demand)
  {
    var inventory := opening;
    var levels: seq<real> := [];
    var m := 0;
    while m < MonthsPerYear
      invariant m <= MonthsPerYear && m <= |volume|
      invariant levels == Levels(opening, volume[..m], demand)
      invariant inventory == Closing(opening, levels)
    {
      if m >= |volume| {
        return Failure(MissingMonth(m));
      }
      var purchase := volume[m];
      inventory := inventory + purchase - demand;
      if inventory < 0.0 {
        inventory := 0.0;
      }
      assert volume[..m + 1][..m] == volume[..m];
      levels := levels + [inventory];
      m := m + 1;
    }
    return Success(levels);
  }

  /** When every month buys exactly the demand, the stock never moves from a non-negative opening. */
  lemma {:induction false} SteadyScheduleKeepsOpening(opening: real, volumes: seq<real>, demand: real)
    requires opening >= 0.0
    requires forall m :: 0 <= m < |volumes| ==> volumes[m] == demand
    ensures forall m :: 0 <= m < |volumes| ==> Levels(opening, volumes, demand)[m] == opening
    decreases |volumes|
  {
    if |volumes| > 0 {
      var init := volumes[..|volumes| - 1];
      assert forall m :: 0 <= m < |init| ==> init[m] == volumes[m];
      SteadyScheduleKeepsOpening(opening, init, demand);
      assert Closing(opening, Levels(opening, init, demand)) == opening;
    }
  }

  /** With a steady schedule over the year, the 13-point average is the opening stock itself. */
  lemma SteadyScheduleAverage(opening: real, volumes: seq<real>, demand: real)
    requires opening >= 0.0
    requires |volumes| == MonthsPerYear
    requires forall m :: 0 <= m < |volumes| ==> volumes[m] == demand
    ensures AverageInventory(opening, Levels(opening, volumes, demand)) == opening
  {
    SteadyScheduleKeepsOpening(opening, volumes, demand);
    SumConstant(Levels(opening, volumes, demand), opening);
  }

  /** Over a year, the average lies between any bounds that hold for the opening and every level. */
  lemma AverageWithinBounds(opening: real, levels: seq<real>, lo: real, hi: real)
    requires |levels| == MonthsPerYear
    requires lo <= opening <= hi
    requires forall m :: 0 <= m < |levels| ==> lo <= levels[m] <= hi
    ensures lo <= AverageInventory(opening, levels) <= hi
  {
    SumLowerBound(levels, lo);
    SumUpperBound(levels, hi);
  }

  /** A month's carry stays at or above the running balance when the previous level did. */
  lemma BalanceStep(prev: real, purchase: real, demand: real, supplied: real, m: nat)
    requires prev >= supplied - m as real * demand
    ensures Carry(prev, purchase, demand) >= supplied + purchase - (m + 1) as real * demand
  {
    assert (m + 1) as real * demand == m as real * demand + demand;
  }

  /**
   * Flooring only ever raises the stock: each month-end level is at least the
   * unclamped running balance, opening + purchases so far - demand so far.
   */
  lemma {:induction false} LevelsDominateRunningBalance(opening: real, volumes: seq<real>, demand: real)
    ensures forall m :: 0 <= m < |volumes| ==>
      Levels(opening, volumes, demand)[m] >= opening + Sum(volumes[..m + 1]) - (m + 1) as real * demand
    decreases |volumes|
  {
    if |volumes| > 0 {
      var n := |volumes| - 1;
      var init := volumes[..n];
      var levels := Levels(opening, volumes, demand);
      var before := Levels(opening, init, demand);
      LevelsDominateRunningBalance(opening, init, demand);
      assert levels == before + [Carry(Closing(opening, before), volumes[n], demand)];
      forall m | 0 <= m < |volumes|
        ensures levels[m] >= opening + Sum(volumes[..m + 1]) - (m + 1) as real * demand
      {
        SumPrefixStep(volumes, m);
        if m < n {
          assert init[..m + 1] == volumes[..m + 1];
          assert levels[m] == before[m];
        } else {
          assert m == n && levels[m] == Carry(Closing(opening, before), volumes[m], demand);
          if m > 0 {
            assert init[..m] == volumes[..m];
          } else {
            assert volumes[..m] == [];
          }
          BalanceStep(Closing(opening, before), volumes[m], demand, opening + Sum(volumes[..m]), m);
        }
      }
    }
  }
}
