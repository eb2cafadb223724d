/** Picking the scenario the buyer prefers: the first one with the highest profit. */
module Compare {
  import opened Outcomes
  import opened Deal

  /**
   * Index of the winning scenario: no scenario earns more, and every scenario
   * listed before it earns strictly less, so ties go to the earlier one. There
   * is no winner among no scenarios.
   */
  method BestScenario(results: seq<Kpis>) returns (best: Option<nat>)
    ensures best.None? <==> |results| == 0
    ensures best.Some? ==> best.value < |results|
    ensures best.Some? ==> forall j :: 0 <= j < |results| ==> results[j].profit <= results[best.value].profit
    ensures best.Some? ==> forall j :: 0 <= j < best.value ==> results[j].profit < results[best.value].profit
  {
    if |results| == 0 {
      return None;
    }
    var top := 0;
    var i := 1;
    while i < |results|
      invariant top < i <= |results|
      invariant forall j :: 0 <= j < i ==> results[j].profit <= results[top].profit
      invariant forall j :: 0 <= j < top ==> results[j].profit < results[top].profit
    {
      if results[i].profit > results[top].profit {
        top := i;
      }
      i := i + 1;
    }
    return Some(top);
  }
}
