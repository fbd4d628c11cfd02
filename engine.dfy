/**
 * Finance.com_finance as the source runs it: each series is a fresh zero array
 * of Rows(p) slots that the method fills slice by slice or in an index loop and
 * then closes with `a[0] = np.sum(a)`. Every stage is proved to produce the
 * closed-form series of module Projection.
 */
module Engine {
  import opened Numeric
  import opened Parameters
  import opened Projection

  /**
   * `a[0] = np.sum(a)` on an array whose total slot still holds zero and whose
   * year slots agree with the series `t`: the array then holds `t`.
   */
  method TotalOf(a: array<real>, ghost t: seq<real>) returns (s: seq<real>)
    requires a.Length == |t| && IsTotal(t) && a[0] == 0.0
    requires forall j :: 1 <= j < a.Length ==> a[j] == t[j]
    modifies a
    ensures s == a[..] == t
  {
    StoredTotal(a[..], t);
    a[0] := Sum(a[..]);
    s := a[..];
  }

  /**
   * `a = np.zeros(n)`, `a[lo:hi] = v`, `a[0] = np.sum(a)`: the slice assignment
   * numpy clips to the array, followed by the total.
   */
  method FilledSeries(n: nat, lo: nat, hi: nat, v: real) returns (s: seq<real>)
    requires 1 <= lo && n > 0
    ensures s == Totalled(Window(n, lo, hi, v))
  {
    var a := new real[n](_ => 0.0);
    forall j | lo <= j < hi && j < n { a[j] := v; }
    s := TotalOf(a, Totalled(Window(n, lo, hi, v)));
  }

  // ---------------------------------------------------------------------------
  // Investment plan and financing

  /**
   * The investment plan: the static investment and half a year of discounted
   * construction interest in the construction year, the working capital in the
   * first operating year, and their sum.
   */
  method InvestmentPlan(p: Params)
    returns (buildInvestment: seq<real>, buildInterest: seq<real>, workingCapital: seq<real>, totalInvestment: seq<real>)
    requires Admissible(p)
    ensures buildInvestment == BuildInvestment(p) && buildInterest == BuildInterest(p)
    ensures workingCapital == WorkingCapital(p) && totalInvestment == TotalInvestment(p)
  {
    var b, n := BuildCells(p), Rows(p);
    buildInvestment := FilledSeries(n, 1, 2, p.staticInvestment);
    buildInterest := FilledSeries(n, 1, 2, HalfYearInterest(p, buildInvestment[1]));
    workingCapital := FilledSeries(n, b + 1, b + 2, WorkingNeed(p));
    totalInvestment := Add(Add(buildInvestment, buildInterest), workingCapital);
  }

  /** The equity series: the capital ratio of the construction year, the working ratio of the working capital. */
  method CapitalSeries(p: Params, totalInvestment: seq<real>) returns (capital: seq<real>)
    requires Admissible(p) && totalInvestment == TotalInvestment(p)
    ensures capital == Capital(p)
  {
    var b, n := BuildCells(p), Rows(p);
    var ca := new real[n](_ => 0.0);
    ca[1] := Equity(totalInvestment[1], p.capitalRatio);
    ca[b + 1] := Equity(totalInvestment[b + 1], p.workingRatio);
    capital := TotalOf(ca, Capital(p));
  }

  /**
   * Financing: equity is the capital ratio of the construction-year investment
   * and the working ratio of the working capital; the long-term loan and the
   * working-capital loan cover the rest of each.
   */
  method Financing(p: Params, totalInvestment: seq<real>)
    returns (capital: seq<real>, longLoan: seq<real>, workingLoan: seq<real>)
    requires Admissible(p) && totalInvestment == TotalInvestment(p)
    ensures capital == Capital(p) && longLoan == LongLoan(p) && workingLoan == WorkingLoan(p)
  {
    var b, n := BuildCells(p), Rows(p);
    capital := CapitalSeries(p, totalInvestment);
    var construction, working := totalInvestment[1] - capital[1], totalInvestment[b + 1] - capital[b + 1];
    assert construction == Borrowed(totalInvestment[1], p.capitalRatio);
    assert working == Borrowed(totalInvestment[b + 1], p.workingRatio);
    longLoan := FilledSeries(n, 1, 2, construction);
    workingLoan := FilledSeries(n, b + 1, b + 2, working);
  }

  // ---------------------------------------------------------------------------
  // Total cost build-up

  /**
   * The operating cost components, each filled over the operating years:
   * material and other expense by capacity quota, wages by head count and
   * insurance on the fixed assets.
   */
  method CostBuildUp(p: Params, fixAssets: real)
    returns (material: seq<real>, wage: seq<real>, insurance: seq<real>, otherExpense: seq<real>)
    requires Admissible(p)
    ensures material == Material(p) && wage == Wage(p)
    ensures insurance == Insurance(p, fixAssets) && otherExpense == OtherExpense(p)
  {
    var w, n := BuildCells(p) + 1, Rows(p);
    material := FilledSeries(n, w, n, YearlyMaterial(p));
    wage := FilledSeries(n, w, n, YearlyWage(p));
    insurance := FilledSeries(n, w, n, YearlyInsurance(p, fixAssets));
    otherExpense := FilledSeries(n, w, n, YearlyOtherExpense(p));
  }

  /**
   * Maintenance at the in-warranty repair rate for the first `warranty`
   * operating years and at the out-of-warranty rate afterwards.
   */
  method MaintenanceCost(p: Params, fixAssets: real) returns (maintenance: seq<real>)
    requires Admissible(p)
    ensures maintenance == Maintenance(p, fixAssets)
  {
    var w, n := BuildCells(p) + 1, Rows(p);
    var mt := new real[n](_ => 0.0);
    forall j | w <= j < w + p.warranty && j < n { mt[j] := fixAssets * p.inRepairRate; }
    forall j | w + p.warranty <= j < n { mt[j] := fixAssets * p.outRepairRate; }
    assert forall j :: 1 <= j < n ==>
      Maintenance(p, fixAssets)[j] == (if j >= w + p.warranty then fixAssets * p.outRepairRate else if j >= w then fixAssets * p.inRepairRate else 0.0);
    maintenance := TotalOf(mt, Maintenance(p, fixAssets));
  }

  /**
   * Straight-line depreciation of the fixed assets net of their residual value
   * over the first `depreciationPeriod` operating years (cut off at the last
   * slot), and an amortization series that stays zero.
   */
  method WriteOff(p: Params, fixAssets: real) returns (depreciation: seq<real>, amortization: seq<real>)
    requires Admissible(p)
    ensures depreciation == Depreciation(p, fixAssets) && amortization == Amortization(p)
  {
    var w, n := BuildCells(p) + 1, Rows(p);
    var yearly := YearlyDepreciation(fixAssets, p.residualRate, p.depreciationPeriod);
    depreciation := FilledSeries(n, w, w + p.depreciationPeriod, yearly);
    var am := new real[n](_ => 0.0);
    amortization := TotalOf(am, Amortization(p));
  }

  // ---------------------------------------------------------------------------
  // Debt service

  /**
   * Equal-principal repayment of the long-term loan `longLoan` over the first
   * `loanPeriod` operating years, the opening balance of each loan year, the
   * interest on those balances, and interest on the working-capital loan
   * `workingLoan` in every operating year.
   */
  method DebtService(p: Params, longLoan: real, workingLoan: real)
    returns (longPrincipal: seq<real>, longOpening: seq<real>, longInterest: seq<real>, workingInterest: seq<real>)
    requires Admissible(p)
    ensures longPrincipal == LongPrincipal(p, longLoan) && longOpening == LongOpening(p, longLoan)
    ensures longInterest == LongInterest(p, longLoan) && workingInterest == WorkingInterest(p, workingLoan)
  {
    var b, n := BuildCells(p), Rows(p);
    longPrincipal := FilledSeries(n, b + 1, b + 1 + p.loanPeriod, Installment(longLoan, p.loanPeriod));
    longOpening := OpeningBalances(p, longLoan, longPrincipal);
    var li := Scale(longOpening, LongRate(p));
    assert longOpening[0] == 0.0;
    StoredTotal(li, Totalled(li));
    longInterest := li[0 := Sum(li)];
    workingInterest := FilledSeries(n, b + 1, n, AnnualInterest(workingLoan, p.workingRate));
  }

  /**
   * The opening-balance loop: loan year i opens with the loan less i
   * installments, read from the principal series one slot to the left (for
   * i = 0 that slot is the last construction year, which holds zero).
   */
  method OpeningBalances(p: Params, longLoan: real, longPrincipal: seq<real>) returns (opening: seq<real>)
    requires Admissible(p) && longPrincipal == LongPrincipal(p, longLoan)
    ensures opening == LongOpening(p, longLoan)
  {
    var b, n, l := BuildCells(p), Rows(p), p.loanPeriod;
    var a := new real[n](_ => 0.0);
    for i := 0 to l
      invariant forall j :: 0 <= j < n ==>
        a[j] == (if b + 1 <= j < b + 1 + i then OpeningBalance(longLoan, l, j - (b + 1)) else 0.0)
    {
      assert longPrincipal[b + i] == if i == 0 then 0.0 else Installment(longLoan, l);
      a[b + i + 1] := longLoan - i as real * longPrincipal[b + i];
    }
    opening := a[..];
  }

  // ---------------------------------------------------------------------------
  // Generation, revenue and output VAT

  /**
   * The generation loop: the first two operating years are set directly and
   * year 3+i is the second year's generation times (0.9755 - 0.0045*i).
   */
  method Generation(p: Params) returns (power: seq<real>)
    requires Admissible(p)
    ensures power == Power(p)
  {
    var b, n := BuildCells(p), Rows(p);
    var a := new real[n](_ => 0.0);
    a[b + 1] := p.capacity * p.aep / GenerationNorm;
    a[b + 2] := a[b + 1] * 0.98;
    ghost var first := FirstYearPower(p);
    for i := 0 to p.operatePeriod - 2
      invariant forall j :: 0 <= j < n ==>
        a[j] == (if j == b + 1 then first else if j == b + 2 then first * 0.98
                 else if b + 3 <= j < b + 3 + i then Declined(first * 0.98, j - (b + 3)) else 0.0)
    {
      a[b + 3 + i] := a[b + 2] * (0.9755 - i as real * 0.0045);
    }
    power := a[..];
  }

  /** Sales net of VAT over the operating years, and the output VAT they contain. */
  method Sales(p: Params, power: seq<real>) returns (income: seq<real>, vat: seq<real>)
    requires Admissible(p) && power == Power(p)
    ensures income == Income(p) && vat == Vat(p)
  {
    var w, n := BuildCells(p) + 1, Rows(p);
    var inc := new real[n](_ => 0.0);
    forall j | w <= j < n { inc[j] := NetRevenue(p, power[j]); }
    income := TotalOf(inc, Income(p));
    var v := new real[n](_ => 0.0);
    forall j | w <= j < n { v[j] := OutputVat(p, income[j]); }
    vat := TotalOf(v, Vat(p));
  }

  // ---------------------------------------------------------------------------
  // VAT input-credit carry-forward

  /**
   * The credit-balance loop: the first operating year opens with the whole
   * input-VAT deduction and every later year with the previous balance less the
   * previous year's output VAT.
   */
  method CreditBalance(p: Params, vat: seq<real>, deduction: real) returns (balance: seq<real>)
    requires Admissible(p) && |vat| == Rows(p)
    ensures balance == Balance(p, vat, deduction)
  {
    var b, n := BuildCells(p), Rows(p);
    var a := new real[n](_ => 0.0);
    for i := 0 to p.operatePeriod
      invariant forall j :: 0 <= j < n ==>
        a[j] == (if b + 1 <= j < b + 1 + i then deduction - Sum(vat[b + 1..j]) else 0.0)
    {
      if i == 0 {
        a[b + 1 + i] := deduction;
      } else {
        assert vat[b + 1..b + 1 + i][..i - 1] == vat[b + 1..b + i];
        a[b + 1 + i] := a[b + i] - vat[b + i];
      }
    }
    balance := a[..];
  }

  /**
   * The surcharge loop: city-construction tax and education surcharge on the
   * output VAT the remaining credit does not cover, followed by the totals.
   */
  method Surcharges(p: Params, vat: seq<real>, balance: seq<real>, ghost deduction: real)
    returns (buildTax: seq<real>, eduSurcharge: seq<real>)
    requires Admissible(p) && |vat| == Rows(p) && balance == Balance(p, vat, deduction)
    ensures buildTax == BuildTax(p, vat, deduction) && eduSurcharge == EduSurcharge(p, vat, deduction)
  {
    var bt, es := SurchargeYears(p, vat, balance);
    StoredTotal(bt, BuildTax(p, vat, deduction));
    buildTax := bt[0 := Sum(bt)];
    StoredTotal(es, EduSurcharge(p, vat, deduction));
    eduSurcharge := es[0 := Sum(es)];
  }

  /**
   * The body of the surcharge loop over the operating years, in three cases
   * (credit used up, credit running out this year, credit still sufficient).
   */
  method SurchargeYears(p: Params, vat: seq<real>, balance: seq<real>) returns (tax: seq<real>, surcharge: seq<real>)
    requires Admissible(p) && |vat| == |balance| == Rows(p)
    ensures |tax| == |surcharge| == Rows(p)
    ensures forall j :: 0 <= j < Rows(p) ==>
      tax[j] == (if j >= BuildCells(p) + 1 then Levy(balance[j], vat[j], p.buildTaxRate) else 0.0)
    ensures forall j :: 0 <= j < Rows(p) ==>
      surcharge[j] == (if j >= BuildCells(p) + 1 then Levy(balance[j], vat[j], p.eduSurchargeRate) else 0.0)
  {
    var b, n := BuildCells(p), Rows(p);
    var bt := new real[n](_ => 0.0);
    var es := new real[n](_ => 0.0);
    for i := 0 to p.operatePeriod
      invariant forall j :: 0 <= j < n ==>
        bt[j] == (if b + 1 <= j < b + 1 + i then Levy(balance[j], vat[j], p.buildTaxRate) else 0.0)
      invariant forall j :: 0 <= j < n ==>
        es[j] == (if b + 1 <= j < b + 1 + i then Levy(balance[j], vat[j], p.eduSurchargeRate) else 0.0)
    {
      var k := b + 1 + i;
      bt[k], es[k] := SurchargeYear(balance[k], vat[k], p.buildTaxRate, p.eduSurchargeRate);
    }
    tax, surcharge := bt[..], es[..];
  }

  /** One year of the surcharge loop: the three cases on the remaining credit `balance`. */
  method SurchargeYear(balance: real, vat: real, taxRate: real, surchargeRate: real) returns (tax: real, surcharge: real)
    ensures tax == Levy(balance, vat, taxRate) && surcharge == Levy(balance, vat, surchargeRate)
  {
    if balance <= 0.0 {
      tax := vat * taxRate;
      surcharge := vat * surchargeRate;
    } else if balance > 0.0 && balance - vat <= 0.0 {
      tax := (vat - balance) * taxRate;
      surcharge := (vat - balance) * surchargeRate;
    } else {
      tax := 0.0;
      surcharge := 0.0;
    }
  }

  /**
   * The absorbed-VAT loop over the absolute slots B+1 .. operatePeriod-1: the
   * output VAT the remaining credit covers (nothing once the credit is negative).
   */
  method AbsorbedVat(p: Params, vat: seq<real>, balance: seq<real>, ghost deduction: real) returns (vatTurn: seq<real>)
    requires Admissible(p) && |vat| == Rows(p) && balance == Balance(p, vat, deduction)
    ensures vatTurn == VatTurn(p, vat, deduction)
  {
    var b, n := BuildCells(p), Rows(p);
    var a := new real[n](_ => 0.0);
    var i := b + 1;
    while i < p.operatePeriod
      invariant b + 1 <= i && (i <= p.operatePeriod || i == b + 1)
      invariant forall j :: 0 <= j < n ==> a[j] == (if b + 1 <= j < i then Absorbed(balance[j], vat[j]) else 0.0)
    {
      if balance[i] < 0.0 {
        a[i] := 0.0;
      } else if balance[i] >= vat[i] {
        a[i] := vat[i];
      } else {
        a[i] := balance[i];
      }
      i := i + 1;
    }
    vatTurn := TotalOf(a, VatTurn(p, vat, deduction));
  }

  // ---------------------------------------------------------------------------
  // Income tax

  /** The income-tax loop over the operating years, followed by the total. */
  method IncomeTaxSchedule(p: Params, taxable: seq<real>) returns (incomeTax: seq<real>)
    requires Admissible(p) && |taxable| == Rows(p)
    ensures incomeTax == IncomeTax(p, taxable)
  {
    var t := IncomeTaxYears(p, taxable);
    StoredTotal(t, IncomeTax(p, taxable));
    incomeTax := t[0 := Sum(t)];
  }

  /** The body of the income-tax loop: operating year i is taxed by the holiday schedule. */
  method IncomeTaxYears(p: Params, taxable: seq<real>) returns (tax: seq<real>)
    requires Admissible(p) && |taxable| == Rows(p)
    ensures |tax| == Rows(p)
    ensures forall j :: 0 <= j < Rows(p) ==>
      tax[j] == (if j >= BuildCells(p) + 1 then HolidayTax(j - (BuildCells(p) + 1), taxable[j], p.incomeTaxRate) else 0.0)
  {
    var b, n := BuildCells(p), Rows(p);
    var a := new real[n](_ => 0.0);
    for i := 0 to p.operatePeriod
      invariant forall j :: 0 <= j < n ==>
        a[j] == (if b + 1 <= j < b + 1 + i then HolidayTax(j - (b + 1), taxable[j], p.incomeTaxRate) else 0.0)
    {
      var k := b + 1 + i;
      if i < 3 {
        a[k] := 0.0;
      } else if taxable[k] <= 0.0 {
        a[k] := 0.0;
      } else if i < 6 {
        a[k] := taxable[k] * p.incomeTaxRate / 2.0;
      } else {
        a[k] := taxable[k] * p.incomeTaxRate;
      }
    }
    tax := a[..];
  }

  // ---------------------------------------------------------------------------
  // Recoveries in the final operating year

  /**
   * The residual value of the fixed assets and the working capital come back
   * in the final year (slot B + operatePeriod); the equity share of the working
   * capital is written to slot 0 and the final year alike.
   */
  method Recoveries(p: Params, fixAssets: real, workingCapital: seq<real>)
    returns (recoverAsset: seq<real>, recoverProWorking: seq<real>, recoverCapWorking: seq<real>)
    requires Admissible(p) && workingCapital == WorkingCapital(p)
    ensures recoverAsset == RecoverAsset(p, fixAssets) && recoverProWorking == RecoverProWorking(p)
    ensures recoverCapWorking == RecoverCapWorking(p)
  {
    var b, n := BuildCells(p), Rows(p);
    recoverAsset := FilledSeries(n, b + p.operatePeriod, b + p.operatePeriod + 1, Residual(fixAssets, p.residualRate));
    recoverProWorking := FilledSeries(n, b + p.operatePeriod, b + p.operatePeriod + 1, workingCapital[b + 1]);
    var rc := new real[n](_ => 0.0);
    var share := Equity(workingCapital[b + 1], p.workingRatio);
    rc[0], rc[b + p.operatePeriod] := share, share;
    recoverCapWorking := rc[..];
  }

  // ---------------------------------------------------------------------------
  // The stages of one evaluation, composed as the source composes them

  /**
   * Operating cost (the five components plus the auxiliary cost series), the
   * long-term loan repayment, interest, and total cost (depreciation, operating
   * cost, amortization and interest).
   */
  method CostSchedule(p: Params, fixAssets: real, longLoan: real, workingLoan: real, costList: seq<real>)
    returns (operateCost: seq<real>, longPrincipal: seq<real>, interest: seq<real>, totalCost: seq<real>)
    requires Admissible(p) && |costList| == Rows(p)
    ensures operateCost == OperateCost(p, fixAssets, costList) && longPrincipal == LongPrincipal(p, longLoan)
    ensures interest == Interest(p, longLoan, workingLoan)
    ensures totalCost == TotalCost(p, fixAssets, longLoan, workingLoan, costList)
  {
    var material, wage, insurance, otherExpense := CostBuildUp(p, fixAssets);
    var maintenance := MaintenanceCost(p, fixAssets);
    var depreciation, amortization := WriteOff(p, fixAssets);
    operateCost := Add(Add(Add(Add(Add(maintenance, wage), insurance), material), otherExpense), costList);
    var longOpening, longInterest, workingInterest;
    longPrincipal, longOpening, longInterest, workingInterest := DebtService(p, longLoan, workingLoan);
    interest := Add(longInterest, workingInterest);
    totalCost := Add(Add(Add(depreciation, operateCost), amortization), interest);
  }

  /**
   * Generation, revenue, output VAT, the credit balance, the surcharges, the
   * VAT refund and the absorbed VAT, combined into the operating tax and the
   * subsidy income.
   */
  method TaxSchedule(p: Params, vatDeduction: real)
    returns (income: seq<real>, operateTax: seq<real>, vatReturn: seq<real>, subside: seq<real>)
    requires Admissible(p) && vatDeduction == VatDeduction(p)
    ensures income == Income(p) && operateTax == RunOperateTax(p)
    ensures vatReturn == VatReturn(p, Vat(p), vatDeduction) && subside == RunSubside(p)
  {
    var power := Generation(p);
    var vat;
    income, vat := Sales(p, power);
    var balance := CreditBalance(p, vat, vatDeduction);
    var buildTax, eduSurcharge := Surcharges(p, vat, balance, vatDeduction);
    operateTax := Add(buildTax, eduSurcharge);
    vatReturn := Scale(buildTax, RefundFactor(p));
    var vatTurn := AbsorbedVat(p, vat, balance, vatDeduction);
    subside := Add(vatReturn, vatTurn);
  }

  /**
   * Profit (revenue less operating tax and total cost plus the VAT refund) and
   * the income tax on it; the loss carried forward is a zero series.
   */
  method ProfitAndTax(p: Params, costList: seq<real>, income: seq<real>, operateTax: seq<real>,
                      totalCost: seq<real>, vatReturn: seq<real>)
    returns (profit: seq<real>, incomeTax: seq<real>)
    requires Admissible(p) && |costList| == Rows(p)
    requires income == Income(p) && operateTax == RunOperateTax(p)
    requires totalCost == TotalCost(p, FixAssets(p), LongLoanOf(p), WorkingLoanOf(p), costList)
    requires vatReturn == VatReturn(p, Vat(p), VatDeduction(p))
    ensures profit == Profit(p, costList) && incomeTax == RunIncomeTax(p, costList)
  {
    profit := Add(Sub(Sub(income, operateTax), totalCost), vatReturn);
    var offsetLoss := Zeros(Rows(p));
    AddZeros(profit);
    incomeTax := IncomeTaxSchedule(p, Sub(profit, offsetLoss));
  }

  /**
   * com_finance after the cost write-back: every stage on parameters `p` whose
   * cost components are already derived, from the investment series already
   * computed, to the project and equity cash flows closed by the auxiliary
   * series, returned without their total slot.
   */
  method Evaluate(p: Params, costList: seq<real>, cashList: seq<real>, capList: seq<real>,
                  buildInvestment: seq<real>, workingCapital: seq<real>, totalInvestment: seq<real>,
                  capital: seq<real>, longLoan: seq<real>, workingLoan: seq<real>)
    returns (preTax: seq<real>, afterTax: seq<real>, equity: seq<real>)
    requires Admissible(p) && |costList| == |cashList| == |capList| == Rows(p)
    requires buildInvestment == BuildInvestment(p) && workingCapital == WorkingCapital(p)
    requires totalInvestment == TotalInvestment(p) && capital == Capital(p)
    requires longLoan == LongLoan(p) && workingLoan == WorkingLoan(p)
    ensures preTax == PreTaxFlow(p, costList, cashList)[1..]
    ensures afterTax == AfterTaxFlow(p, costList, cashList)[1..]
    ensures equity == EquityFlow(p, costList, capList)[1..]
  {
    var vatDeduction := VatDeduction(p);
    var fixAssets := totalInvestment[1] - vatDeduction;
    assert fixAssets == FixAssets(p);
    var operateCost, longPrincipal, interest, totalCost :=
      CostSchedule(p, fixAssets, longLoan[1], workingLoan[BuildCells(p) + 1], costList);
    var income, operateTax, vatReturn, subside := TaxSchedule(p, vatDeduction);
    var profit, incomeTax := ProfitAndTax(p, costList, income, operateTax, totalCost, vatReturn);
    var recoverAsset, recoverProWorking, recoverCapWorking := Recoveries(p, fixAssets, workingCapital);
    var proInflow := Add(Add(Add(income, subside), recoverAsset), recoverProWorking);
    var proOutflow := Add(Add(Add(buildInvestment, workingCapital), operateCost), operateTax);
    var preProNetflow := Add(Sub(proInflow, proOutflow), cashList);
    var afterProNetflow := Sub(preProNetflow, incomeTax);
    var capInflow := Add(Add(Add(income, subside), recoverAsset), recoverCapWorking);
    var capOutflow := Add(Add(Add(Add(Add(capital, longPrincipal), interest), operateCost), operateTax), incomeTax);
    var capNetflow := Add(Sub(capInflow, capOutflow), capList);
    preTax, afterTax, equity := preProNetflow[1..], afterProNetflow[1..], capNetflow[1..];
  }
}
