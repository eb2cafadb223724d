# IPB negotiation simulator — KPI model of one OLED supply deal

This project models the scenario evaluator of the IPB negotiation simulator in Dafny.
IPB is a buyer negotiating an OLED supply agreement with the supplier CDA. For one
negotiated deal the evaluator takes:

- a 12-month purchase schedule;
- the gross price and the discount;
- the payment terms in days;
- the Ecolowrap, customization and technical-support terms;
- the Incoterm and DOA-replacement labels;
- the expected monthly demand and the selling price.

It returns a KPI record with the following parts:

- **Scalar P&L roll-up.** It computes the net unit price and the units sold. Units sold is
  the year's demand, capped by the opening OLED stock plus all purchases. It then computes
  revenue and five cost lines: OLED, other variable, fixed, warranty and inventory. It adds
  four benefit lines: supplier-credit financing, technical support, customization and the
  Ecolowrap grant. The result is the profit and the margin per unit.
- **Clamped inventory simulation.** Each month adds that month's purchase to the OLED stock
  and takes away the monthly demand. A negative balance is floored at zero, so shortfalls
  are not carried as backlog. The inventory cost is the cost of capital on the average
  stock. The average is taken over 13 points: the opening stock and the 12 month-ends.
- **Pass-through of terms.** The payment days, Incoterm, DOA label and service flags are
  copied into the result unchanged.

The front end compares two scenarios. The one with the higher profit is the winner, and a
tie goes to the first.

Modules:

- `Outcomes`: `Option` and `Result`.
- `Series`: sums.
- `Inventory`: the monthly carry-forward, the loop as the program runs it, and the 13-point
  average.
- `Deal`: the assumptions record, the scenario and KPI records, the P&L roll-up `Roll`, and
  `Simulate`, which composes the roll-up with the inventory simulation.
- `DealProperties`: lemmas that relate scenarios to one another and KPI to inputs.
- `Compare`: the winner.

Quantities and money are `real`. The program's nine cost and value constants are the fields
of an immutable `Assumptions` record:

- other variable cost 257.4;
- fixed cost 14 800 000;
- field defect rate 0.02;
- warranty cost 125;
- cost of capital 0.10;
- opening OLED stock 500;
- Ecolowrap grant 200 000;
- value per engineer-week 10 000;
- customization value 5.

`Deal.Defaults` holds these values. The sidebar can override four of them: the cost of
capital, the value per engineer-week, the customization value and the grant. The other five
are never reassigned by the program; the model generalises them to parameters as well. The
default selling price 672.73 only pre-fills the sidebar's selling-price field; the selling
price is an input of each `Scenario`.

What `dealmaker.py` does and does not do:

- It has no production plan, DOA replacement lag, field-failure returns, or transport and
  insurance lines, and it never reads its finished-goods stock constant. Its OLED inventory is drawn down by demand
  alone, and the DOA choice is only a label.
- It adds the technical-support and customization values into profit, and so does the
  model.
- It validates nothing. The only failure is reading a month the schedule does not have. A
  schedule with fewer than 12 entries stops with `MissingMonth(n)`, where n is the
  schedule's length.
- A schedule with more than 12 entries is accepted. Total purchases sum every entry, but
  the inventory loop reads only the first 12.

## Model

| member | source | states |
|---|---|---|
| Inventory.Carry | dealmaker.py:70-72 | one month's stock is the smallest non-negative value not below previous stock + purchase − demand, and it equals 0 or that balance |
| Inventory.Levels | dealmaker.py:65-73 | exactly one level per month; every level is ≥ 0; level[0] is the carry from the opening stock and level[m] is the carry from level[m−1] with month m's purchase |
| Inventory.SimulateInventory | dealmaker.py:65-73 | the 12-month loop fails exactly when the schedule has fewer than 12 entries, naming the first missing month; otherwise it yields the recursive levels of the first 12 months |
| Inventory.SteadyScheduleKeepsOpening | dealmaker.py:65-73 | when every month buys exactly the demand, every level equals the (non-negative) opening stock |
| Inventory.SteadyScheduleAverage | dealmaker.py:75 | with a steady 12-month schedule the 13-point average equals the opening stock |
| Inventory.AverageWithinBounds | dealmaker.py:75 | the 13-point average over the opening stock and 12 levels lies within any bounds that hold for all 13 points |
| Inventory.LevelsDominateRunningBalance | dealmaker.py:70-72 | flooring only raises stock: each level is ≥ opening + purchases to date − demand to date |
| Series.SumLowerBound | dealmaker.py:75 | a sum of n terms, none below lo, is at least n × lo |
| Series.SumUpperBound | dealmaker.py:75 | a sum of n terms, none above hi, is at most n × hi |
| Deal.NetUnitPriceDiscounts | dealmaker.py:52 | net price is the gross price less discount% of itself; 0% keeps the gross price, 100% gives 0, and a discount in [0,100] keeps the net price in [0, gross] |
| Deal.UnitsSold | dealmaker.py:47-49 | units sold is at most the year's demand and at most opening stock + purchases, and equals one of them (the minimum) |
| Deal.FinancingBenefitValue | dealmaker.py:80-82 | 360 × benefit = OLED cost × days × cost of capital; the benefit is 0 for 0-day terms and non-negative for non-negative inputs |
| Deal.MarginRecoversProfit | dealmaker.py:103 | margin × units sold = profit when units are sold; 0 otherwise, with no division |
| Deal.Roll | dealmaker.py:47-103 | terms and flags pass through; units sold is the minimum of the year's demand and opening stock + purchases; every line has its value: OLED cost is purchases × net price, revenue is units sold × selling price, other variable cost is units × per-unit cost, fixed cost is the yearly figure, warranty cost is units × defect rate × per-unit warranty cost, inventory cost is average stock × net price × cost of capital, financing is the supplier-credit benefit, support is weeks × value per week, customization is units × per-unit value when agreed and 0 otherwise, the grant is present iff Ecolowrap is used; profit is revenue − five costs + four benefits and the margin is profit per unit sold |
| Deal.Simulate | dealmaker.py:26-128 | fails exactly when the schedule has fewer than 12 entries, naming the first missing month; otherwise the record is the roll-up (with every line as stated for `Deal.Roll`) of the sum of ALL entries and of the 13-point average of the levels of the first 12 months: total purchases are that sum, units sold is the minimum of demand and opening stock + that sum, inventory cost is that average × net price × cost of capital, profit balances, and the terms pass through unchanged |
| DealProperties.SameSchedule | dealmaker.py:44-77 | scenarios with the same schedule and demand are rolled up from the same purchases and average inventory |
| DealProperties.RollContributionForm | dealmaker.py:55-101 | per-unit form of profit for any purchase total and average inventory (see ProfitContributionForm) |
| DealProperties.ProfitContributionForm | dealmaker.py:55-101 | profit = units sold × (price − other variable cost − expected warranty cost + customization value) − purchases × net price × (1 − days × rate / 360) − fixed cost − inventory cost + support value + grant |
| DealProperties.RollServiceTermsOnlyBenefit | dealmaker.py:85-87 | the Ecolowrap and customization choices change no line other than their own benefit |
| DealProperties.RollEcolowrap | dealmaker.py:87-100 | at the roll-up level, choosing Ecolowrap raises profit by exactly the grant |
| DealProperties.EcolowrapAddsGrant | dealmaker.py:87-100 | choosing Ecolowrap raises a scenario's profit by exactly the grant |
| DealProperties.RollCustomization | dealmaker.py:86-99 | at the roll-up level, customization raises profit by units sold × the per-unit value |
| DealProperties.CustomizationAddsValuePerUnit | dealmaker.py:86-99 | agreeing customization raises a scenario's profit by units sold × the per-unit customization value |
| DealProperties.RollPurchasingIgnoresMarket | dealmaker.py:52-82 | OLED cost and financing benefit depend only on purchases, price, discount and payment terms |
| DealProperties.OledCostIgnoresMarket | dealmaker.py:56-82 | OLED cost and financing benefit do not depend on demand or selling price (independent of units sold) |
| DealProperties.RollTermsOnlyFinance | dealmaker.py:80-101 | payment terms change no line of the roll-up other than the financing benefit |
| DealProperties.RollLongerTerms | dealmaker.py:80-97 | at the roll-up level, longer payment terms never lower profit for a non-negative OLED bill and rate |
| DealProperties.FinancingGrowsWithTerms | dealmaker.py:80-82 | the financing benefit is non-decreasing in the payment days for a non-negative bill and rate |
| DealProperties.LongerTermsNeverHurt | dealmaker.py:80-97 | with a non-negative OLED bill and cost of capital, longer payment terms never lower a scenario's profit |
| DealProperties.ZeroDemandSellsNothing | dealmaker.py:47-103 | with zero demand and non-negative available stock, units sold, revenue and margin are all 0 |
| DealProperties.SteadyScheduleInventoryCost | dealmaker.py:65-77 | when the first 12 months each buy the demand, inventory cost is opening stock × net price × cost of capital |
| DealProperties.InventoryCostNonNegative | dealmaker.py:64-77 | inventory cost is ≥ 0 for a non-negative opening stock, net price and cost of capital |
| DealProperties.DefaultSteadyInventoryCost | dealmaker.py:13-15 | with the program's own constants (500 units on hand, 10% cost of capital), a steady schedule's inventory cost is the capital on 50 OLEDs at the net price |
| Compare.BestScenario | dealmaker.py:303-305 | the winner has the maximal profit, every earlier scenario earns strictly less (ties go to the first), and an empty list has no winner |

## Left out

- The Streamlit interface is presentation and input handling and is not modelled. This
  covers page setup, sidebar inputs, the scenario input forms, the data editor, the run
  button, the results table, the success message and captions (dealmaker.py:6, 131-300,
  307-311).
- The sidebar reassigns the module constants (dealmaker.py:149-165). The model passes them
  in as the `Assumptions` record instead of mutable globals.
- The `/ 1e6` scaling of money fields in the result (dealmaker.py:110-120) is display
  only. The model keeps euro. The winner is chosen on scaled profit in the program, which
  gives the same order.
- pandas and numpy plumbing is not modelled: the float conversion, DataFrame construction
  and `idxmax`. `Compare.BestScenario` states the winner's meaning instead. NaN profits,
  which `idxmax` skips, are not modelled.
- IEEE floating point is not modelled. All arithmetic is exact over `real`, so rounding
  and overflow to infinity do not arise.
- The opening finished-goods stock `INITIAL_FINAL_INV` (dealmaker.py:16) is never read by
  the evaluator, so it has no field.
- The scenario's `name`, the Incoterm and the DOA-replacement choice are labels with no
  logic behind them. They are modelled only as pass-through values.
- The caption at dealmaker.py:309 says DOA timing is valued, but the evaluator never uses
  it.
- Units sold use the annual cap (demand against opening stock plus all purchases). The
  monthly clamped inventory is used only for the inventory cost. A schedule that stocks
  out in some months therefore still sells the full annual cap. This is kept as written.
