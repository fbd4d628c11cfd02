# Financial evaluation of a power-generation project, in Dafny

This project models the two cooperating parts of the `finance` package:

- `Finance.com_finance` turns about forty scalar project parameters (capacity,
  full-load hours, tariff, investment, ratios, rates, periods) into
  year-indexed series:
  - the investment plan and its financing;
  - the operating cost with a warranty cut-over;
  - equal-principal debt service;
  - a generation curve that declines linearly, not compounded;
  - revenue and output VAT;
  - the input-VAT credit carried forward, with the city-construction tax and
    education surcharge on the VAT it no longer covers;
  - the VAT refund and absorbed-VAT subsidy;
  - profit and a staged income-tax holiday (three years exempt, three at half
    rate);
  - the pre-tax, after-tax and equity net cash flows.

  Every series has `ceil(build_period) + operate_period + 1` slots. Slot 0
  holds the grand total; then come the construction years, then the operating
  years. The method returns the three net flows with slot 0 dropped.
- `cal_price` and `cal_aep` search for a critical value. They move
  `finance.price` by ±0.0001 (or `finance.aep` by ±1), re-running `com_finance`
  and the IRR after every step, until the IRR target of the chosen mode is
  reached:
  - mode 0: the equity IRR;
  - mode 1: the pre-tax project IRR;
  - any other mode: both, in four cases.

Layout:

- `numeric.dfy` (`Numeric`): series as `seq<real>`, `np.sum`, the elementwise
  operations, a clipped slice fill (`Window`) and the slot-0 total convention
  (`Totalled`, `IsTotal`), with the summation lemmas.
- `parameters.dfy` (`Parameters`): the parameter record `Params`, the
  constructor defaults, the admissible inputs, and the cost write-back
  `Resolve`.
- `projection.dfy` (`Projection`): one closed-form function per series of
  `com_finance`, stage by stage. `Project(p)` is the triple the method returns.
- `projection_facts.dfy` (`ProjectionFacts`): what those series satisfy.
- `engine.dfy` (`Engine`): the imperative stages of `com_finance`. They work
  on arrays filled by slice assignment and `np.sum`, and keep the source's
  index loops: opening balances, generation, credit balance, surcharges,
  absorbed VAT and income tax. Each stage is proved to produce its closed-form
  series.
- `base.dfy` (`Base`): class `Finance`. Its fields are the parameters plus
  the three auxiliary series. `ComFinance` resets the auxiliary series, writes
  the cost components back onto the object and returns `Project` of the
  parameters it was called with.
- `calculate.dfy` (`Calculate`): `cal_price` and `cal_aep` over a `Finance`
  object.
  - The IRR is a function parameter `irr`.
  - The searches are stated over any evaluation `run` that agrees with
    `Project` (`Evaluates`). The entry points use `Evaluation`, which is
    `Project` on admissible parameters.

These quirks of the source are modelled as written:

- Generation in operating year 3+i is year 2 times (0.9755 - 0.0045 i), not
  compounded.
- The absorbed-VAT loop stops at absolute slot `operate_period`, so no operating
  year at or after that slot gets any: the last `ceil(build_period) + 1`
  operating years when `operate_period >= ceil(build_period) + 1`, and every
  operating year otherwise.
- The three auxiliary series are replaced by zeros before they are added in.
- The four cost components are overwritten on the object whenever their ratio
  is non-zero.
- The equity share of the recovered working capital is written to slot 0 and
  to the final year.
- With `loan_period` 0 the long-term loan is still borrowed but the installment
  slice is empty, so it is never repaid and bears no interest (`UnpaidLoan`).
- Slices that run past the end are clipped, as numpy does (warranty or
  depreciation period longer than the operating period).

## Model

| member | source | states |
|---|---|---|
| Base.Finance.constructor | finance/base.py:176-227 | The object holds every parameter and the three auxiliary series exactly as given. |
| Base.Finance.ResetCostList | finance/base.py:283 | The cost-adjustment series becomes `row_cells` zeros; every parameter and the other two series are unchanged. |
| Base.Finance.ResetCashList | finance/base.py:323 | The project-flow adjustment series becomes `row_cells` zeros; nothing else changes. |
| Base.Finance.ResetCapList | finance/base.py:330 | The equity-flow adjustment series becomes `row_cells` zeros; nothing else changes. |
| Base.Finance.WriteBackEquipmentCost | finance/base.py:353-354 | The equipment cost becomes static investment × ratio when the ratio is non-zero and is kept otherwise; no other field changes. |
| Base.Finance.WriteBackInstallCost | finance/base.py:355-356 | Same for the installation cost. |
| Base.Finance.WriteBackBuildCost | finance/base.py:357-358 | Same for the construction works cost. |
| Base.Finance.WriteBackOtherCost | finance/base.py:359-360 | Same for the other cost. |
| Base.Finance.DeriveCosts | finance/base.py:353-360 | The new parameters are `Resolve` of the old ones: all four costs re-derived where their ratio is non-zero, the auxiliary series untouched. |
| Base.Finance.ComFinance | finance/base.py:229-515 | Afterwards the object holds the written-back parameters and three zero series of length `row_cells`. The returned triple is the pre-tax, after-tax and equity flow of `Project` of the parameters at the call, slot 0 dropped. |
| Parameters.Ceil | finance/base.py:256 | `math.ceil`: the least integer not below x. |
| Parameters.BuildCells | finance/base.py:256 | The number of construction slots is `ceil(build_period)`, at least 1 for a positive period. |
| Parameters.ResolveIdempotent | finance/base.py:353-360 | A second write-back changes nothing. It preserves admissibility and leaves price and aep alone. |
| Parameters.Defaults | finance/base.py:176-183 | The constructor defaults are admissible and give one construction year. |
| Projection.Rows | finance/base.py:256-257 | `row_cells = operate_period + build_cells + 1`, at least two operating slots after the construction slots. |
| Numeric.Totalled | finance/base.py:337-339 | `a[0] = np.sum(a)` on a series with zero in slot 0 makes slot 0 the total of slots 1..N and keeps every other slot. |
| Numeric.StoredTotal | finance/base.py:377-383 | Storing `np.sum(a)` in slot 0 of an array whose year slots match a totalled series yields that series. |
| Numeric.SumAdd | finance/base.py:340 | The total of an elementwise sum is the sum of the totals (elementwise sums keep the slot-0 convention, `AddKeepsTotal`). |
| Numeric.SumScale | finance/base.py:393 | The total of a scaled series is the scaled total. |
| Engine.TotalOf | finance/base.py:337-339 | `a[0] = np.sum(a)` on the array: its contents become the given totalled series. |
| Engine.FilledSeries | finance/base.py:334-339 | `np.zeros(n)`, a clipped slice fill with v and the total give the `Window` series with its total. |
| Engine.InvestmentPlan | finance/base.py:334-340 | Construction investment, construction interest, working capital and total investment equal their closed forms. |
| Engine.CapitalSeries | finance/base.py:341-345 | The equity array, with its total, equals the closed-form equity series. |
| Engine.Financing | finance/base.py:341-347 | Equity, long-term loan and working-capital loan equal their closed forms. |
| Engine.CostBuildUp | finance/base.py:369-382 | Material, wage, insurance and other-expense series equal their closed forms. |
| Engine.MaintenanceCost | finance/base.py:371-378 | The two-stretch maintenance fill equals the closed form. |
| Engine.WriteOff | finance/base.py:375-383 | Depreciation and the zero amortization equal their closed forms. |
| Engine.DebtService | finance/base.py:389-399 | Principal, opening balance, long-term interest and working-capital interest equal their closed forms. |
| Engine.OpeningBalances | finance/base.py:390-391 | The opening-balance loop (reading the installment one slot to the left) yields loan − i × installment in loan year i. |
| Engine.Generation | finance/base.py:409-412 | The generation loop yields the closed-form curve. |
| Engine.Sales | finance/base.py:413-416 | Revenue net of VAT and output VAT, with totals, equal their closed forms. |
| Engine.CreditBalance | finance/base.py:417-421 | The balance loop yields the deduction less all earlier output VAT. |
| Engine.SurchargeYear | finance/base.py:423-431 | One year's city tax and surcharge follow the three cases on the remaining credit. |
| Engine.SurchargeYears | finance/base.py:422-431 | The loop fills every operating slot with the levy of its year and leaves the others zero. |
| Engine.Surcharges | finance/base.py:422-433 | City tax and education surcharge with totals equal their closed forms. |
| Engine.AbsorbedVat | finance/base.py:436-443 | The absorbed-VAT loop over slots B+1..operate_period−1, with its total, equals its closed form. |
| Engine.IncomeTaxYears | finance/base.py:447-455 | The loop taxes operating year i by the holiday schedule and leaves construction slots zero. |
| Engine.IncomeTaxSchedule | finance/base.py:447-456 | The income-tax series with its total equals the closed form. |
| Engine.Recoveries | finance/base.py:464-475 | Residual asset value and project working capital come back in the final year with totals; the equity share of working capital is in slot 0 and the final year. |
| Engine.CostSchedule | finance/base.py:385-404 | Operating cost (with the auxiliary series), principal, interest and total cost equal their closed forms. |
| Engine.TaxSchedule | finance/base.py:409-444 | Revenue, operating tax, VAT refund and subsidy equal their closed forms. |
| Engine.ProfitAndTax | finance/base.py:445-456 | Profit and income tax, with a zero loss carried forward, equal their closed forms. |
| Engine.Evaluate | finance/base.py:362-478 | From the investment series onwards, the array and loop stages compose into the pre-tax, after-tax and equity net flows (closed by the auxiliary series), which equal the closed-form flows without slot 0. |
| ProjectionFacts.FinancingSplit | finance/base.py:334-347 | Total investment in year 1 is the static investment plus half-year interest; in the first operating year it is the working capital. Equity is the capital (resp. working) ratio share. Equity plus loan equals total investment in each funded year and in the totals. |
| ProjectionFacts.PrincipalRepaid | finance/base.py:389-395 | For loan_period ≥ 1: the installment is loan/loan_period in exactly the first loan_period operating years and zero elsewhere; the slot-0 total is the loan. |
| ProjectionFacts.BalanceFallsByInstallment | finance/base.py:390-391 | For loan_period ≥ 1: each loan year opens with the previous opening balance less the previous installment. |
| ProjectionFacts.LoanCleared | finance/base.py:389-391 | For loan_period ≥ 1: the first loan year opens with the whole loan, and the last installment clears the balance. |
| ProjectionFacts.UnpaidLoan | finance/base.py:389-393 | For loan_period = 0: no installment and no long-term interest in any slot, total included. |
| ProjectionFacts.LoanYear | finance/base.py:389-391 | In loan year i the opening balance is loan − i × (loan/loan_period) and the installment is loan/loan_period. |
| ProjectionFacts.InterestOnOpening | finance/base.py:389-393 | Each year's long-term interest is the opening balance × loan rate × rate discount. It is zero outside the loan years, and the final loan year pays interest on its last installment only. |
| ProjectionFacts.InterestStep | finance/base.py:389-393 | From one loan year to the next, the interest falls by the interest on the installment repaid the year before. |
| ProjectionFacts.DepreciationSchedule | finance/base.py:375-377 | For 1 ≤ depreciation_period ≤ operate_period: depreciation is fix_assets × (1 − residual)/period in exactly the first `period` operating years and zero in every other slot, and its total is fix_assets × (1 − residual). A longer period clips the slice (`Engine.WriteOff` covers that case) and is outside this lemma. |
| ProjectionFacts.MaintenanceCutover | finance/base.py:371-378 | Maintenance is zero during construction, at the in-warranty rate for the first `warranty` operating years and at the out-of-warranty rate afterwards. The total is the clipped warranty years × in-rate plus the remaining years × out-rate. |
| ProjectionFacts.IncomeTaxHoliday | finance/base.py:447-455 | Income tax is zero in operating years 1-3 and on non-positive taxable income. It is taxable × rate / 2 in years 4-6 and taxable × rate from year 7. This is the holiday schedule read slot by slot off the closed form; the properties built on it are `IncomeTaxNonNegative` and `AfterTaxBelowPreTax`, and the loop is `Engine.IncomeTaxYears`. |
| ProjectionFacts.IncomeTaxNonNegative | finance/base.py:447-456 | With a non-negative rate no slot of the income tax, total included, is negative. |
| ProjectionFacts.AfterTaxBelowPreTax | finance/base.py:471 | The after-tax flow is the pre-tax flow less income tax in every slot, so with a non-negative rate it never exceeds it. |
| ProjectionFacts.BalanceRecurrence | finance/base.py:417-421 | The credit balance starts at the VAT deduction and drops each year by the previous year's output VAT. |
| ProjectionFacts.BalanceNonIncreasing | finance/base.py:417-421 | With non-negative output VAT the credit balance never rises. |
| ProjectionFacts.LevyOnUncoveredVat | finance/base.py:422-431 | For non-negative VAT the three cases amount to a levy on max(0, vat − max(balance, 0)). |
| ProjectionFacts.ExhaustedCredit | finance/base.py:423-435 | Once the balance is ≤ 0, city tax and surcharge fall on the whole output VAT and the refund is vat × refund rate. |
| ProjectionFacts.VatTurnStopsAtOperatePeriod | finance/base.py:436-442 | The absorbed VAT is zero during construction and in every slot from `operate_period` on. |
| ProjectionFacts.VatTurnYear | finance/base.py:436-442 | In slots B+1 .. operate_period−1, for non-negative output VAT, the absorbed VAT is min(vat, max(balance, 0)), and it plus the VAT the surcharges fall on (`LevyOnUncoveredVat`) is the whole output VAT. |
| ProjectionFacts.GenerationCurve | finance/base.py:409-412 | Year 1 is capacity × aep / 0.93112. Year 2 is 0.98 × year 1. Year 3+i is year 2 × (0.9755 − 0.0045 i). |
| ProjectionFacts.GenerationDeclines | finance/base.py:409-412 | With positive capacity × aep, generation falls strictly from each operating year to the next. |
| ProjectionFacts.SalesSplit | finance/base.py:413-415 | In operating years income × (1 + vat) = power × price and vat × (1 + vat rate) = income × vat rate; both are zero during construction. |
| ProjectionFacts.OperateCostTotal | finance/base.py:385 | The operating cost keeps slot 0 as the total when the auxiliary series does. |
| ProjectionFacts.SurchargesTotal | finance/base.py:432-444 | Operating tax, subsidy and interest keep slot 0 as the total. |
| ProjectionFacts.ProjectFlowTotals | finance/base.py:468-471 | Both project flows keep slot 0 as the total when the auxiliary series do. |
| ProjectionFacts.CapInflowTotal | finance/base.py:476 | The equity inflow keeps slot 0 as the total. |
| ProjectionFacts.RecoverCapWorkingTotal | finance/base.py:475 | The equity working-capital recovery written to slot 0 and the final year still has slot 0 equal to the total. |
| ProjectionFacts.CapOutflowTotal | finance/base.py:477 | The equity outflow keeps slot 0 as the total. |
| ProjectionFacts.EquityFlowTotal | finance/base.py:478 | The equity net flow keeps slot 0 as the total when the auxiliary series do. |
| ProjectionFacts.NetFlowTotals | finance/base.py:468-478 | With zeroed auxiliary series, slot 0 of each net flow is the total of its year slots. |
| ProjectionFacts.AuxiliaryListsAddNothing | finance/base.py:385-478 | With the auxiliary series reset to zeros, the operating cost is the five components alone. The pre-tax and equity flows are inflow minus outflow. |
| ProjectionFacts.ProjectShape | finance/base.py:512-515 | Each returned flow has one slot per construction and operating year (slot 0 dropped); with a non-negative tax rate after-tax ≤ pre-tax slot by slot. |
| ProjectionFacts.InvestmentIgnoresCosts | finance/base.py:334-360 | The investment and financing series read none of the written-back costs, so they are the same before and after the write-back. |
| Calculate.SettingCommutes | finance/calculate.py:69-71 | Setting the price (or aep) commutes with the cost write-back and keeps the parameters admissible; setting the current value changes nothing. |
| Calculate.ProjectResolved | finance/calculate.py:55-57 | Re-running `com_finance` on already written-back parameters returns the same flows as on the original ones. |
| Calculate.Nudge | finance/calculate.py:70 | `finance.price += delta` (or aep): only the searched field changes, by exactly delta; the parameters and the three auxiliary series are otherwise as before. |
| Calculate.Rerun | finance/calculate.py:55-57 | One `com_finance` run and the IRR of `flow[0]` and `flow[2]`: the IRRs of the pre-tax and equity flows of `Project` on the current parameters. The parameters become their write-back and the three auxiliary series `row_cells` zeros. |
| Calculate.StepOnce | finance/calculate.py:92-99 | From the state after k steps, one step and re-run leads to the state after k+1 steps, with both gaps at that point and the auxiliary series at zeros. |
| Calculate.Advance | finance/calculate.py:69-72 | One step of modes 0/1 returns the gap the mode watches: equity in mode 0, pre-tax project in mode 1. The object holds the next point, with the auxiliary series at zeros. |
| Calculate.SignSteps | finance/calculate.py:66-85 | The `while temp * gap > 0` loop of modes 0/1: on exit the object holds the start moved by k steps, with the auxiliary series at zeros. The current and previous gaps are those of steps k and k−1, every earlier pair of gaps kept a positive product, and the loop flag is false or the fuel is spent. |
| Calculate.SignSearch | finance/calculate.py:60-85 | The direction is up iff the initial gap is negative, and the returned value is the start plus steps × step. Every step taken kept the last two gaps' product positive, and a converged search stopped at the first product ≤ 0. A zero initial gap takes no step. The auxiliary series stay at zeros. |
| Calculate.BothSearch | finance/calculate.py:86-124 | The case is chosen in the source's if/elif order. The direction is up iff either IRR is short. The case's flag held at every step taken, and a converged search stops at the first point where it fails. The auxiliary series stay at zeros. |
| Calculate.Calibrate | finance/calculate.py:55-126 | One initial run on the supplied parameters, then the mode's search. Mode 0 and 1 promise `SignFound`, every other mode `BothFound`. Only the searched field differs from the written-back parameters, and the auxiliary series are `row_cells` zeros. |
| Calculate.CalPrice | finance/calculate.py:23-126 | Returns `finance.price`: the written-back start price plus a whole number of signed 0.0001 steps, satisfying the promise of the mode. The other parameters are as written back and the auxiliary series are `row_cells` zeros. The targets and the mode default to 0.06, 0.08 and 0, as in the source. |
| Calculate.CalAep | finance/calculate.py:165-268 | The same for `finance.aep` with steps of 1, with the same defaults for the targets and the mode. |
| Calculate.StaysOnStartSide | finance/calculate.py:67-72 | While every step keeps the gap's sign, every point visited lies on the starting side of the target. |
| Calculate.SignSearchStopsAtCrossing | finance/calculate.py:60-85 | A converged mode-0/1 search returns the first grid point at or past the target. Starting below, the IRR is below target at every earlier point and at or above it at the last; starting above, the mirror image. |
| Calculate.BothSearchCases | finance/calculate.py:86-124 | The four cases in plain terms: both short, project short, equity short, both met. Every case but both-met steps upwards. On convergence, "both short" ends with both met, "project short" with the project IRR met and "equity short" with the equity IRR met; "both met" ends where one gap crosses zero. When the initial flag is false (e.g. a zero gap with both met) the value is unchanged. |

## Left out

- `com_irr` (numpy_financial's IRR) is a foreign root-finder. The searches take the IRR as the function parameter `irr`, and nothing is assumed about it.
- `com_present`, `com_payback`, `com_lcoe`, `cal_investment` and `cal_capacity` are not part of this model. They are a library call or empty stubs.
- The `mode=True` audit tables of `com_finance` (finance/base.py:482-508) are not modelled. Neither are the series only they read: `finance`, `debt`, `long_ending`, `long_return`, `working_principal`, `working_return`, `total_return`, `var_cost`, `fix_cost`, `net_profit`, `provident`, `distribute_profit`, `ebit`. `provident_rate` and `grace_period` are stored but read by nothing that is modelled.
- The `Price` tariff table, the spreadsheet writers and the example scripts are not part of this model. They are static data and file I/O.
- Amounts are exact reals, not IEEE doubles: rounding, overflow, `inf` and `nan` are not modelled. In particular the VAT refund `build_tax * vat_refund_rate / build_tax_rate` is computed as `build_tax * (vat_refund_rate / build_tax_rate)`, which is the same real number.
- `Parameters.Admissible` excludes the inputs on which `com_finance` raises or produces `inf`/`nan`:
  - fewer than two operating years;
  - a loan period longer than the operating period;
  - a VAT rate of −100%;
  - a zero city-construction tax rate.

  It also excludes a non-positive construction period, which the source accepts. For a period in (−1, 0]
  `ceil(build_period)` is 0, so the construction slot and the first operating year share slot 1. For a
  period ≤ −1 numpy's negative slices wrap around. The model does not capture either overlap.

  Periods are natural numbers, so negative periods (which numpy would turn into slices from the end) are not modelled. The `int()` conversions of `warranty` and `depreciation_period` in `__init__` are represented by those fields being whole numbers.
- Calculate.CalPrice: the source loops without bound. The model stops after `fuel` steps and then reports `converged == false`; the mode's promise about the stopping point holds only for converged outcomes.
- Calculate.CalAep: the same `fuel` bound as `CalPrice`.
- Calculate.SignSearch: runs at most `fuel` steps (see `CalPrice`).
- Calculate.SignSteps: runs at most `fuel` steps (see `CalPrice`).
- Calculate.BothSearch: runs at most `fuel` steps (see `CalPrice`).
- Calculate.Calibrate: runs at most `fuel` steps (see `CalPrice`).
