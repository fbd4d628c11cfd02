/**
 * The cash-flow projection of Finance.com_finance stated in closed form, stage by
 * stage. Every series has Rows(p) slots: slot 0 holds the total, slots 1..B the
 * construction years and slots B+1..B+O the operating years, where B is the
 * number of whole construction years and O the operating period. A stage takes
 * the values of the earlier stages it reads as parameters, the way the source
 * passes them along in local arrays.
 */
module Projection {
  import opened Numeric
  import opened Parameters

  function Rows(p: Params): (n: nat)
    requires Admissible(p)
    ensures n == p.operatePeriod + BuildCells(p) + 1 && n >= BuildCells(p) + 3
  {
    p.operatePeriod + BuildCells(p) + 1
  }

  // ---------------------------------------------------------------------------
  // Investment plan and financing

  function BuildInvestment(p: Params): (s: seq<real>)
    requires Admissible(p)
    ensures |s| == Rows(p) && IsTotal(s)
  {
    Totalled(Window(Rows(p), 1, 2, p.staticInvestment))
  }

  /** Interest on `amount` drawn at mid-year, at the discounted long-term rate. */
  function HalfYearInterest(p: Params, amount: real): real
  {
    amount * p.loanRate * p.rateDiscount / 2.0
  }

  /** The working capital needed per unit of capacity. */
  function WorkingNeed(p: Params): real
  {
    p.capacity * p.workingQuota
  }

  /** The equity part of `amount` at `equityRatio`. */
  function Equity(amount: real, equityRatio: real): real
  {
    amount * equityRatio
  }

  /** The part of `amount` not covered by equity at `equityRatio`. */
  function Borrowed(amount: real, equityRatio: real): real
  {
    amount - Equity(amount, equityRatio)
  }

  /** Construction interest at half the discounted long-term rate (mid-year drawdown). */
  function BuildInterest(p: Params): (s: seq<real>)
    requires Admissible(p)
    ensures |s| == Rows(p) && IsTotal(s)
  {
    Totalled(Window(Rows(p), 1, 2, HalfYearInterest(p, p.staticInvestment)))
  }

  /** Working capital is injected in the first operating year. */
  function WorkingCapital(p: Params): (s: seq<real>)
    requires Admissible(p)
    ensures |s| == Rows(p) && IsTotal(s)
  {
    Totalled(Window(Rows(p), BuildCells(p) + 1, BuildCells(p) + 2, WorkingNeed(p)))
  }

  function TotalInvestment(p: Params): (s: seq<real>)
    requires Admissible(p)
    ensures |s| == Rows(p)
  {
    Add(Add(BuildInvestment(p), BuildInterest(p)), WorkingCapital(p))
  }

  /** Equity: the capital ratio of the construction year, the working ratio of the working capital. */
  function Capital(p: Params): (s: seq<real>)
    requires Admissible(p)
    ensures |s| == Rows(p) && IsTotal(s)
  {
    var ti := TotalInvestment(p);
    var w := BuildCells(p) + 1;
    Totalled(seq(Rows(p), j requires 0 <= j < Rows(p) =>
      if j == 1 then Equity(ti[1], p.capitalRatio) else if j == w then Equity(ti[w], p.workingRatio) else 0.0))
  }

  function LongLoan(p: Params): (s: seq<real>)
    requires Admissible(p)
    ensures |s| == Rows(p) && IsTotal(s)
  {
    var ti := TotalInvestment(p);
    Totalled(Window(Rows(p), 1, 2, Borrowed(ti[1], p.capitalRatio)))
  }

  function WorkingLoan(p: Params): (s: seq<real>)
    requires Admissible(p)
    ensures |s| == Rows(p) && IsTotal(s)
  {
    var ti := TotalInvestment(p);
    var w := BuildCells(p) + 1;
    Totalled(Window(Rows(p), w, w + 1, Borrowed(ti[w], p.workingRatio)))
  }

  /** Input VAT on the investment: 13%-class equipment, 9% construction and installation, 6% other costs. */
  function VatDeduction(p: Params): real
    requires p.vatRate != -1.0
  {
    p.equipmentCost / (1.0 + p.vatRate) * p.vatRate
      + (p.buildCost + p.installCost) / (1.0 + 0.09) * 0.09
      + p.otherCost / (1.0 + 0.06) * 0.06
  }

  function FixAssets(p: Params): real
    requires Admissible(p)
  {
    TotalInvestment(p)[1] - VatDeduction(p)
  }

  // ---------------------------------------------------------------------------
  // Total cost build-up (zero in construction years)

  /** Purchased material: the material quota per unit of capacity. */
  function YearlyMaterial(p: Params): real
  {
    p.capacity * p.materialQuota
  }

  /** Wages and welfare: head count times the yearly labour cost per head. */
  function YearlyWage(p: Params): real
  {
    p.workers as real * p.laborCost
  }

  /** Insurance premium on the fixed assets. */
  function YearlyInsurance(p: Params, fixAssets: real): real
  {
    fixAssets * p.insuranceRate
  }

  /** Other expenses: the other-expense quota per unit of capacity. */
  function YearlyOtherExpense(p: Params): real
  {
    p.capacity * p.otherQuota
  }

  function Material(p: Params): (s: seq<real>)
    requires Admissible(p)
    ensures |s| == Rows(p) && IsTotal(s)
  {
    Totalled(Window(Rows(p), BuildCells(p) + 1, Rows(p), YearlyMaterial(p)))
  }

  function Wage(p: Params): (s: seq<real>)
    requires Admissible(p)
    ensures |s| == Rows(p) && IsTotal(s)
  {
    Totalled(Window(Rows(p), BuildCells(p) + 1, Rows(p), YearlyWage(p)))
  }

  /** In-warranty repair rate for the first `warranty` operating years, out-of-warranty afterwards. */
  function Maintenance(p: Params, fixAssets: real): (s: seq<real>)
    requires Admissible(p)
    ensures |s| == Rows(p) && IsTotal(s)
  {
    var w := BuildCells(p) + 1;
    Totalled(seq(Rows(p), j =>
      if j >= w + p.warranty then fixAssets * p.outRepairRate
      else if j >= w then fixAssets * p.inRepairRate
      else 0.0))
  }

  function Insurance(p: Params, fixAssets: real): (s: seq<real>)
    requires Admissible(p)
    ensures |s| == Rows(p) && IsTotal(s)
  {
    Totalled(Window(Rows(p), BuildCells(p) + 1, Rows(p), YearlyInsurance(p, fixAssets)))
  }

  function OtherExpense(p: Params): (s: seq<real>)
    requires Admissible(p)
    ensures |s| == Rows(p) && IsTotal(s)
  {
    Totalled(Window(Rows(p), BuildCells(p) + 1, Rows(p), YearlyOtherExpense(p)))
  }

  /** The straight-line charge: the depreciable value spread over the period (never read when the period is zero). */
  function YearlyDepreciation(fixAssets: real, residualRate: real, period: nat): real
  {
    if period > 0 then Share(fixAssets * (1.0 - residualRate), period) else 0.0
  }

  /** Straight-line depreciation over the first `depreciationPeriod` operating years. */
  function Depreciation(p: Params, fixAssets: real): (s: seq<real>)
    requires Admissible(p)
    ensures |s| == Rows(p) && IsTotal(s)
  {
    var w := BuildCells(p) + 1;
    Totalled(Window(Rows(p), w, w + p.depreciationPeriod, YearlyDepreciation(fixAssets, p.residualRate, p.depreciationPeriod)))
  }

  function Amortization(p: Params): (s: seq<real>)
    requires Admissible(p)
    ensures |s| == Rows(p) && IsTotal(s)
  {
    Totalled(Zeros(Rows(p)))
  }

  /** Operating cost, including the auxiliary cost-adjustment series. */
  function OperateCost(p: Params, fixAssets: real, costList: seq<real>): (s: seq<real>)
    requires Admissible(p) && |costList| == Rows(p)
    ensures |s| == Rows(p)
  {
    Add(Add(Add(Add(Add(Maintenance(p, fixAssets), Wage(p)), Insurance(p, fixAssets)), Material(p)),
        OtherExpense(p)), costList)
  }

  // ---------------------------------------------------------------------------
  // Debt service: equal principal on the long-term loan, bullet working-capital loan

  /** One equal-principal installment (never read when the loan period is zero). */
  function Installment(longLoan: real, loanPeriod: nat): real
  {
    if loanPeriod > 0 then Share(longLoan, loanPeriod) else 0.0
  }

  /** The long-term loan rate after the rate discount. */
  function LongRate(p: Params): real
  {
    p.loanRate * p.rateDiscount
  }

  /** The balance outstanding after `k` installments. */
  function OpeningBalance(longLoan: real, loanPeriod: nat, k: nat): real
  {
    longLoan - k as real * Installment(longLoan, loanPeriod)
  }

  /** A year's interest on `balance` at `rate`. */
  function AnnualInterest(balance: real, rate: real): real
  {
    balance * rate
  }

  /** `longLoan` is the construction-year long-term loan, long_loan[1]. */
  function LongPrincipal(p: Params, longLoan: real): (s: seq<real>)
    requires Admissible(p)
    ensures |s| == Rows(p) && IsTotal(s)
  {
    var w := BuildCells(p) + 1;
    Totalled(Window(Rows(p), w, w + p.loanPeriod, Installment(longLoan, p.loanPeriod)))
  }

  /** Opening balance of loan year i (0-based): the loan less i installments. Slot 0 holds no total. */
  function LongOpening(p: Params, longLoan: real): (s: seq<real>)
    requires Admissible(p)
    ensures |s| == Rows(p)
  {
    var w := BuildCells(p) + 1;
    seq(Rows(p), j =>
      if w <= j < w + p.loanPeriod then OpeningBalance(longLoan, p.loanPeriod, j - w)
      else 0.0)
  }

  function LongInterest(p: Params, longLoan: real): (s: seq<real>)
    requires Admissible(p)
    ensures |s| == Rows(p) && IsTotal(s)
  {
    Totalled(Scale(LongOpening(p, longLoan), LongRate(p)))
  }

  /** `workingLoan` is the first-operating-year working-capital loan, working_loan[B+1]. */
  function WorkingInterest(p: Params, workingLoan: real): (s: seq<real>)
    requires Admissible(p)
    ensures |s| == Rows(p) && IsTotal(s)
  {
    Totalled(Window(Rows(p), BuildCells(p) + 1, Rows(p), AnnualInterest(workingLoan, p.workingRate)))
  }

  function Interest(p: Params, longLoan: real, workingLoan: real): (s: seq<real>)
    requires Admissible(p)
    ensures |s| == Rows(p)
  {
    Add(LongInterest(p, longLoan), WorkingInterest(p, workingLoan))
  }

  function TotalCost(p: Params, fixAssets: real, longLoan: real, workingLoan: real, costList: seq<real>): (s: seq<real>)
    requires Admissible(p) && |costList| == Rows(p)
    ensures |s| == Rows(p)
  {
    Add(Add(Add(Depreciation(p, fixAssets), OperateCost(p, fixAssets, costList)), Amortization(p)),
        Interest(p, longLoan, workingLoan))
  }

  // ---------------------------------------------------------------------------
  // Generation, revenue and output VAT

  /** Normalisation of the first operating year's generation. */
  const GenerationNorm: real := 0.93112

  /** Generation of the first operating year: capacity times full-load hours, normalised. */
  function FirstYearPower(p: Params): real
  {
    p.capacity * p.aep / GenerationNorm
  }

  /** Generation of operating year 3+i: the second year's times (0.9755 - 0.0045*i). */
  function Declined(second: real, i: nat): real
  {
    second * (0.9755 - i as real * 0.0045)
  }

  /**
   * Generation: year 1 is capacity*aep/0.93112, year 2 is 98% of it, and year 3+i
   * is year 2 times (0.9755 - 0.0045*i), a linear, not compounded, decline.
   * Slot 0 holds no total.
   */
  function Power(p: Params): (s: seq<real>)
    requires Admissible(p)
    ensures |s| == Rows(p)
  {
    var w := BuildCells(p) + 1;
    var first := FirstYearPower(p);
    seq(Rows(p), j =>
      if j == w then first
      else if j == w + 1 then first * 0.98
      else if j >= w + 2 then Declined(first * 0.98, j - w - 2)
      else 0.0)
  }

  /** Sales revenue net of VAT on `power` at the VAT-inclusive price. */
  function NetRevenue(p: Params, power: real): real
    requires p.vatRate != -1.0
  {
    power * p.price / (1.0 + p.vatRate)
  }

  /** The output VAT contained in sales whose net revenue is `income`. */
  function OutputVat(p: Params, income: real): real
    requires p.vatRate != -1.0
  {
    income * p.vatRate / (1.0 + p.vatRate)
  }

  /** Revenue net of VAT. */
  function Income(p: Params): (s: seq<real>)
    requires Admissible(p)
    ensures |s| == Rows(p) && IsTotal(s)
  {
    var power, w := Power(p), BuildCells(p) + 1;
    Totalled(seq(Rows(p), j requires 0 <= j < Rows(p) => if j >= w then NetRevenue(p, power[j]) else 0.0))
  }

  function Vat(p: Params): (s: seq<real>)
    requires Admissible(p)
    ensures |s| == Rows(p) && IsTotal(s)
  {
    var income, w := Income(p), BuildCells(p) + 1;
    Totalled(seq(Rows(p), j requires 0 <= j < Rows(p) => if j >= w then OutputVat(p, income[j]) else 0.0))
  }

  // ---------------------------------------------------------------------------
  // VAT input-credit carry-forward

  /** Remaining input credit at the start of each operating year: the deduction less all earlier output VAT. */
  function Balance(p: Params, vat: seq<real>, deduction: real): (s: seq<real>)
    requires Admissible(p) && |vat| == Rows(p)
    ensures |s| == Rows(p)
  {
    var w := BuildCells(p) + 1;
    seq(Rows(p), j requires 0 <= j < Rows(p) => if j >= w then deduction - Sum(vat[w..j]) else 0.0)
  }

  /** A surcharge at `rate` on the output VAT the remaining credit does not cover. */
  function Levy(balance: real, vat: real, rate: real): real
  {
    if balance <= 0.0 then vat * rate
    else if balance - vat <= 0.0 then (vat - balance) * rate
    else 0.0
  }

  /** City-construction tax. */
  function BuildTax(p: Params, vat: seq<real>, deduction: real): (s: seq<real>)
    requires Admissible(p) && |vat| == Rows(p)
    ensures |s| == Rows(p) && IsTotal(s)
  {
    var balance := Balance(p, vat, deduction);
    Totalled(seq(Rows(p), j requires 0 <= j < Rows(p) =>
      if j >= BuildCells(p) + 1 then Levy(balance[j], vat[j], p.buildTaxRate) else 0.0))
  }

  function EduSurcharge(p: Params, vat: seq<real>, deduction: real): (s: seq<real>)
    requires Admissible(p) && |vat| == Rows(p)
    ensures |s| == Rows(p) && IsTotal(s)
  {
    var balance := Balance(p, vat, deduction);
    Totalled(seq(Rows(p), j requires 0 <= j < Rows(p) =>
      if j >= BuildCells(p) + 1 then Levy(balance[j], vat[j], p.eduSurchargeRate) else 0.0))
  }

  function OperateTax(p: Params, vat: seq<real>, deduction: real): (s: seq<real>)
    requires Admissible(p) && |vat| == Rows(p)
    ensures |s| == Rows(p)
  {
    Add(BuildTax(p, vat, deduction), EduSurcharge(p, vat, deduction))
  }

  /** The refund per unit of city-construction tax. */
  function RefundFactor(p: Params): real
    requires p.buildTaxRate != 0.0
  {
    p.vatRefundRate / p.buildTaxRate
  }

  /** Immediate VAT refund: build_tax * refund rate / city-tax rate, slot by slot. */
  function VatReturn(p: Params, vat: seq<real>, deduction: real): (s: seq<real>)
    requires Admissible(p) && |vat| == Rows(p)
    ensures |s| == Rows(p)
  {
    Scale(BuildTax(p, vat, deduction), RefundFactor(p))
  }

  /** The part of a year's output VAT the remaining credit absorbs. */
  function Absorbed(balance: real, vat: real): real
  {
    if balance < 0.0 then 0.0 else if balance >= vat then vat else balance
  }

  /**
   * The credit-absorbed output VAT, filled only for the absolute slots B+1 .. O-1
   * (the source's loop bound is the operating period, not the last slot).
   */
  function VatTurn(p: Params, vat: seq<real>, deduction: real): (s: seq<real>)
    requires Admissible(p) && |vat| == Rows(p)
    ensures |s| == Rows(p) && IsTotal(s)
  {
    var balance := Balance(p, vat, deduction);
    Totalled(seq(Rows(p), j requires 0 <= j < Rows(p) =>
      if BuildCells(p) + 1 <= j < p.operatePeriod then Absorbed(balance[j], vat[j]) else 0.0))
  }

  function Subside(p: Params, vat: seq<real>, deduction: real): (s: seq<real>)
    requires Admissible(p) && |vat| == Rows(p)
    ensures |s| == Rows(p)
  {
    Add(VatReturn(p, vat, deduction), VatTurn(p, vat, deduction))
  }

  // ---------------------------------------------------------------------------
  // Income tax: three years exempt, three years at half rate, full rate afterwards

  /** Tax of operating year index i (0-based) on `taxable`. */
  function HolidayTax(i: nat, taxable: real, rate: real): real
  {
    if i < 3 then 0.0
    else if taxable <= 0.0 then 0.0
    else if i < 6 then taxable * rate / 2.0
    else taxable * rate
  }

  function IncomeTax(p: Params, taxable: seq<real>): (s: seq<real>)
    requires Admissible(p) && |taxable| == Rows(p)
    ensures |s| == Rows(p) && IsTotal(s)
  {
    var w := BuildCells(p) + 1;
    Totalled(seq(Rows(p), j requires 0 <= j < Rows(p) =>
      if j >= w then HolidayTax(j - w, taxable[j], p.incomeTaxRate) else 0.0))
  }

  // ---------------------------------------------------------------------------
  // Recoveries in the final operating year

  /** The value of the fixed assets left at the end of operation. */
  function Residual(fixAssets: real, residualRate: real): real
  {
    fixAssets * residualRate
  }

  function RecoverAsset(p: Params, fixAssets: real): (s: seq<real>)
    requires Admissible(p)
    ensures |s| == Rows(p) && IsTotal(s)
  {
    Totalled(Window(Rows(p), Rows(p) - 1, Rows(p), Residual(fixAssets, p.residualRate)))
  }

  function RecoverProWorking(p: Params): (s: seq<real>)
    requires Admissible(p)
    ensures |s| == Rows(p) && IsTotal(s)
  {
    var wc := WorkingCapital(p)[BuildCells(p) + 1];
    Totalled(Window(Rows(p), Rows(p) - 1, Rows(p), wc))
  }

  /** The equity share of the working capital, written to slot 0 and to the final year. */
  function RecoverCapWorking(p: Params): (s: seq<real>)
    requires Admissible(p)
    ensures |s| == Rows(p)
  {
    var wc := WorkingCapital(p)[BuildCells(p) + 1];
    seq(Rows(p), j => if j == 0 || j == Rows(p) - 1 then Equity(wc, p.workingRatio) else 0.0)
  }

  // ---------------------------------------------------------------------------
  // A whole run, on parameters whose cost components are already derived

  function LongLoanOf(p: Params): real
    requires Admissible(p)
  {
    LongLoan(p)[1]
  }

  function WorkingLoanOf(p: Params): real
    requires Admissible(p)
  {
    WorkingLoan(p)[BuildCells(p) + 1]
  }

  function RunOperateCost(p: Params, costList: seq<real>): (s: seq<real>)
    requires Admissible(p) && |costList| == Rows(p)
    ensures |s| == Rows(p)
  {
    OperateCost(p, FixAssets(p), costList)
  }

  function RunOperateTax(p: Params): (s: seq<real>)
    requires Admissible(p)
    ensures |s| == Rows(p)
  {
    OperateTax(p, Vat(p), VatDeduction(p))
  }

  function RunSubside(p: Params): (s: seq<real>)
    requires Admissible(p)
    ensures |s| == Rows(p)
  {
    Subside(p, Vat(p), VatDeduction(p))
  }

  function RunInterest(p: Params): (s: seq<real>)
    requires Admissible(p)
    ensures |s| == Rows(p)
  {
    Interest(p, LongLoanOf(p), WorkingLoanOf(p))
  }

  /** Profit total: revenue less surcharges less total cost plus the VAT refund. */
  function Profit(p: Params, costList: seq<real>): (s: seq<real>)
    requires Admissible(p) && |costList| == Rows(p)
    ensures |s| == Rows(p)
  {
    Add(Sub(Sub(Income(p), RunOperateTax(p)),
            TotalCost(p, FixAssets(p), LongLoanOf(p), WorkingLoanOf(p), costList)),
        VatReturn(p, Vat(p), VatDeduction(p)))
  }

  /** Income tax; the loss carried forward is always zero, so the taxable income is the profit. */
  function RunIncomeTax(p: Params, costList: seq<real>): (s: seq<real>)
    requires Admissible(p) && |costList| == Rows(p)
    ensures |s| == Rows(p)
  {
    IncomeTax(p, Profit(p, costList))
  }

  function ProInflow(p: Params): (s: seq<real>)
    requires Admissible(p)
    ensures |s| == Rows(p)
  {
    Add(Add(Add(Income(p), RunSubside(p)), RecoverAsset(p, FixAssets(p))), RecoverProWorking(p))
  }

  function ProOutflow(p: Params, costList: seq<real>): (s: seq<real>)
    requires Admissible(p) && |costList| == Rows(p)
    ensures |s| == Rows(p)
  {
    Add(Add(Add(BuildInvestment(p), WorkingCapital(p)), RunOperateCost(p, costList)), RunOperateTax(p))
  }

  function PreTaxFlow(p: Params, costList: seq<real>, cashList: seq<real>): (s: seq<real>)
    requires Admissible(p) && |costList| == |cashList| == Rows(p)
    ensures |s| == Rows(p)
  {
    Add(Sub(ProInflow(p), ProOutflow(p, costList)), cashList)
  }

  function AfterTaxFlow(p: Params, costList: seq<real>, cashList: seq<real>): (s: seq<real>)
    requires Admissible(p) && |costList| == |cashList| == Rows(p)
    ensures |s| == Rows(p)
  {
    Sub(PreTaxFlow(p, costList, cashList), RunIncomeTax(p, costList))
  }

  function CapInflow(p: Params): (s: seq<real>)
    requires Admissible(p)
    ensures |s| == Rows(p)
  {
    Add(Add(Add(Income(p), RunSubside(p)), RecoverAsset(p, FixAssets(p))), RecoverCapWorking(p))
  }

  function CapOutflow(p: Params, costList: seq<real>): (s: seq<real>)
    requires Admissible(p) && |costList| == Rows(p)
    ensures |s| == Rows(p)
  {
    Add(Add(Add(Add(Add(Capital(p), LongPrincipal(p, LongLoanOf(p))), RunInterest(p)),
                RunOperateCost(p, costList)), RunOperateTax(p)), RunIncomeTax(p, costList))
  }

  function EquityFlow(p: Params, costList: seq<real>, capList: seq<real>): (s: seq<real>)
    requires Admissible(p) && |costList| == |capList| == Rows(p)
    ensures |s| == Rows(p)
  {
    Add(Sub(CapInflow(p), CapOutflow(p, costList)), capList)
  }

  /** The three net flows com_finance returns, slot 0 dropped. */
  datatype Flows = Flows(preTax: seq<real>, afterTax: seq<real>, equity: seq<real>)

  /**
   * The result of com_finance on parameters `p`: the cost components are derived
   * first and the three auxiliary series are reset to zeros before use.
   */
  function Project(p: Params): (f: Flows)
    requires Admissible(p)
  {
    var r := Resolve(p);
    var z := Zeros(Rows(r));
    Flows(PreTaxFlow(r, z, z)[1..], AfterTaxFlow(r, z, z)[1..], EquityFlow(r, z, z)[1..])
  }
}
