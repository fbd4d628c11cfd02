/** What the closed-form projection promises: financing, debt, depreciation, maintenance, tax and VAT rules. */
module ProjectionFacts {
  import opened Numeric
  import opened Parameters
  import opened Projection

  /**
   * Financing split: the construction year is funded by equity at the capital
   * ratio plus a long-term loan, the first operating year's working capital by
   * equity at the working ratio plus a working-capital loan; equity plus debt is
   * the total investment in each funded year and in the totals of slot 0.
   */
  lemma FinancingSplit(p: Params)
    requires Admissible(p)
    ensures var ti, w := TotalInvestment(p), BuildCells(p) + 1;
      && ti[1] == p.staticInvestment + HalfYearInterest(p, p.staticInvestment)
      && ti[w] == WorkingNeed(p)
      && Capital(p)[1] == Equity(ti[1], p.capitalRatio) && Capital(p)[1] + LongLoan(p)[1] == ti[1]
      && Capital(p)[w] == Equity(ti[w], p.workingRatio) && Capital(p)[w] + WorkingLoan(p)[w] == ti[w]
      && Capital(p)[0] + LongLoan(p)[0] + WorkingLoan(p)[0] == ti[0]
  {
    var w := BuildCells(p) + 1;
    BlockTotal(BuildInvestment(p), 1, 2, p.staticInvestment);
    BlockTotal(BuildInterest(p), 1, 2, HalfYearInterest(p, p.staticInvestment));
    BlockTotal(WorkingCapital(p), w, w + 1, WorkingNeed(p));
    var ti := TotalInvestment(p);
    BlockTotal(LongLoan(p), 1, 2, Borrowed(ti[1], p.capitalRatio));
    BlockTotal(WorkingLoan(p), w, w + 1, Borrowed(ti[w], p.workingRatio));
    TwoPointTotal(Capital(p), 1, w);
  }

  /**
   * Equal-principal repayment: loan/loanPeriod in each of the first `loanPeriod`
   * operating years and nothing in any other year, repaying exactly the loan.
   */
  lemma PrincipalRepaid(p: Params, longLoan: real)
    requires Admissible(p) && p.loanPeriod >= 1
    ensures var w, principal := BuildCells(p) + 1, LongPrincipal(p, longLoan);
      && (forall j :: w <= j < w + p.loanPeriod ==> principal[j] == Share(longLoan, p.loanPeriod))
      && (forall j :: 1 <= j < Rows(p) && !(w <= j < w + p.loanPeriod) ==> principal[j] == 0.0)
      && principal[0] == longLoan
  {
    var w, l := BuildCells(p) + 1, p.loanPeriod;
    var x := Share(longLoan, l);
    BlockTotal(LongPrincipal(p, longLoan), w, w + l, x);
    SharesAddUp(longLoan, l);
  }

  /** With a loan period of 0 the installment slice is empty: the loan is never repaid and bears no interest. */
  lemma UnpaidLoan(p: Params, longLoan: real)
    requires Admissible(p) && p.loanPeriod == 0
    ensures forall j :: 0 <= j < Rows(p) ==> LongPrincipal(p, longLoan)[j] == 0.0 && LongInterest(p, longLoan)[j] == 0.0
  {
    var w := BuildCells(p) + 1;
    InterestOnOpening(p, longLoan);
    BlockTotal(LongPrincipal(p, longLoan), w, w, 0.0);
    BlockTotal(LongInterest(p, longLoan), w, w, 0.0);
  }

  /** The opening balance of the long-term loan falls by one installment a year. */
  lemma BalanceFallsByInstallment(p: Params, longLoan: real)
    requires Admissible(p) && p.loanPeriod >= 1
    ensures var w, l := BuildCells(p) + 1, p.loanPeriod;
      var principal, opening := LongPrincipal(p, longLoan), LongOpening(p, longLoan);
      forall j :: w < j < w + l ==> opening[j] == opening[j - 1] - principal[j - 1]
  {
    var w, l := BuildCells(p) + 1, p.loanPeriod;
    var principal, opening := LongPrincipal(p, longLoan), LongOpening(p, longLoan);
    var x := Share(longLoan, l);
    forall j | w < j < w + l ensures opening[j] == opening[j - 1] - principal[j - 1] {
      LoanYear(p, longLoan, j - 1);
      LoanYear(p, longLoan, j);
      OneMoreShare((j - 1 - w) as real, x);
    }
  }

  /** The opening balance starts at the loan and the last installment clears it. */
  lemma LoanCleared(p: Params, longLoan: real)
    requires Admissible(p) && p.loanPeriod >= 1
    ensures var w, l := BuildCells(p) + 1, p.loanPeriod;
      var principal, opening := LongPrincipal(p, longLoan), LongOpening(p, longLoan);
      opening[w] == longLoan && opening[w + l - 1] - principal[w + l - 1] == 0.0
  {
    var w, l := BuildCells(p) + 1, p.loanPeriod;
    var x := Share(longLoan, l);
    LoanYear(p, longLoan, w);
    LoanYear(p, longLoan, w + l - 1);
    OneMoreShare((l - 1) as real, x);
    SharesAddUp(longLoan, l);
  }

  /** Opening balance and installment of one loan year. */
  lemma LoanYear(p: Params, longLoan: real, j: nat)
    requires Admissible(p) && BuildCells(p) + 1 <= j < BuildCells(p) + 1 + p.loanPeriod
    ensures var x := Share(longLoan, p.loanPeriod);
      && LongOpening(p, longLoan)[j] == longLoan - (j - BuildCells(p) - 1) as real * x
      && LongPrincipal(p, longLoan)[j] == x
  {
    assert LongOpening(p, longLoan)[j] == OpeningBalance(longLoan, p.loanPeriod, j - BuildCells(p) - 1);
  }

  /**
   * Each year's long-term interest is that year's opening balance at the
   * discounted long-term rate. So it is charged only in the loan years, and the
   * final loan year pays interest on its last installment alone (the yearly
   * fall in between is `InterestStep`).
   */
  lemma InterestOnOpening(p: Params, longLoan: real)
    requires Admissible(p)
    ensures var w, l, rate := BuildCells(p) + 1, p.loanPeriod, LongRate(p);
      var interest, opening, principal := LongInterest(p, longLoan), LongOpening(p, longLoan), LongPrincipal(p, longLoan);
      && (forall j :: 1 <= j < Rows(p) ==> interest[j] == opening[j] * rate)
      && (forall j :: 1 <= j < Rows(p) && !(w <= j < w + l) ==> interest[j] == 0.0)
      && (l >= 1 ==> interest[w + l - 1] == principal[w + l - 1] * rate)
  {
    var w, l, rate := BuildCells(p) + 1, p.loanPeriod, LongRate(p);
    var interest, opening, principal := LongInterest(p, longLoan), LongOpening(p, longLoan), LongPrincipal(p, longLoan);
    if l >= 1 {
      LastInterest(p, longLoan);
    }
    forall j | 1 <= j < Rows(p)
      ensures interest[j] == opening[j] * rate && (!(w <= j < w + l) ==> interest[j] == 0.0)
    {
      InterestYear(p, longLoan, j);
    }
  }

  /** From one loan year to the next the interest falls by the interest on the installment repaid. */
  lemma InterestStep(p: Params, longLoan: real, j: nat)
    requires Admissible(p) && BuildCells(p) + 1 < j < BuildCells(p) + 1 + p.loanPeriod
    ensures var interest, principal := LongInterest(p, longLoan), LongPrincipal(p, longLoan);
      interest[j] == interest[j - 1] - principal[j - 1] * LongRate(p)
  {
    var opening, principal := LongOpening(p, longLoan), LongPrincipal(p, longLoan);
    var x := Share(longLoan, p.loanPeriod);
    LoanYear(p, longLoan, j - 1);
    LoanYear(p, longLoan, j);
    OneMoreShare((j - 1 - BuildCells(p) - 1) as real, x);
    InterestYear(p, longLoan, j);
    InterestYear(p, longLoan, j - 1);
    InterestFalls(LongInterest(p, longLoan)[j], LongInterest(p, longLoan)[j - 1], opening[j], opening[j - 1], principal[j - 1], LongRate(p));
  }

  /** The final loan year pays interest on its last installment alone. */
  lemma LastInterest(p: Params, longLoan: real)
    requires Admissible(p) && p.loanPeriod >= 1
    ensures var k := BuildCells(p) + p.loanPeriod;
      LongInterest(p, longLoan)[k] == LongPrincipal(p, longLoan)[k] * LongRate(p)
  {
    var k := BuildCells(p) + p.loanPeriod;
    var opening, principal := LongOpening(p, longLoan), LongPrincipal(p, longLoan);
    LoanCleared(p, longLoan);
    InterestYear(p, longLoan, k);
    InterestFalls(LongInterest(p, longLoan)[k], principal[k] * LongRate(p), opening[k], principal[k], 0.0, LongRate(p));
  }

  /** One year's long-term interest, which is nothing outside the loan years. */
  lemma InterestYear(p: Params, longLoan: real, j: nat)
    requires Admissible(p) && 1 <= j < Rows(p)
    ensures LongInterest(p, longLoan)[j] == LongOpening(p, longLoan)[j] * LongRate(p)
    ensures !(BuildCells(p) + 1 <= j < BuildCells(p) + 1 + p.loanPeriod) ==> LongInterest(p, longLoan)[j] == 0.0
  {
  }

  /** Interest at rate r on a balance reduced by `repaid` is the old interest less the interest on `repaid`. */
  lemma InterestFalls(interest: real, before: real, balance: real, previous: real, repaid: real, r: real)
    requires interest == balance * r && balance == previous - repaid
    requires before == previous * r
    ensures interest == before - repaid * r
  {
  }

  /** `count` equal shares of `whole` add up to `whole`. */
  lemma SharesAddUp(whole: real, count: nat)
    requires count >= 1
    ensures count as real * Share(whole, count) == whole
  {
  }

  /** One more share adds one share. */
  lemma OneMoreShare(k: real, x: real)
    ensures (k + 1.0) * x == k * x + x
  {
  }

  /**
   * Straight-line depreciation: fixAssets*(1-residual)/period in the first
   * `depreciationPeriod` operating years and nothing in any other year, adding up
   * to fixAssets*(1-residual) when the period fits in the operating period.
   */
  lemma DepreciationSchedule(p: Params, fixAssets: real)
    requires Admissible(p) && 1 <= p.depreciationPeriod <= p.operatePeriod
    ensures var w, d, dep := BuildCells(p) + 1, p.depreciationPeriod, Depreciation(p, fixAssets);
      && (forall j :: w <= j < w + d ==> dep[j] == Share(fixAssets * (1.0 - p.residualRate), d))
      && (forall j :: 1 <= j < Rows(p) && !(w <= j < w + d) ==> dep[j] == 0.0)
      && dep[0] == fixAssets * (1.0 - p.residualRate)
  {
    var w, d, n := BuildCells(p) + 1, p.depreciationPeriod, Rows(p);
    var v := YearlyDepreciation(fixAssets, p.residualRate, d);
    assert v == Share(fixAssets * (1.0 - p.residualRate), d);
    var dep := Depreciation(p, fixAssets);
    forall j | 1 <= j < n
      ensures dep[j] == (if w <= j < w + d then v else 0.0)
    {
    }
    BlockTotal(dep, w, w + d, v);
    SharesAddUp(fixAssets * (1.0 - p.residualRate), d);
  }

  /**
   * Warranty cut-over: maintenance is fixAssets*inRepairRate in operating years
   * 1..warranty, fixAssets*outRepairRate afterwards and nothing during
   * construction; its total is the sum over the two stretches.
   */
  lemma MaintenanceCutover(p: Params, fixAssets: real)
    requires Admissible(p)
    ensures var w, n, m := BuildCells(p) + 1, Rows(p), Maintenance(p, fixAssets);
      var inYears := if p.warranty <= p.operatePeriod then p.warranty else p.operatePeriod;
      && (forall j :: 1 <= j < w ==> m[j] == 0.0)
      && (forall j :: w <= j < w + p.warranty && j < n ==> m[j] == fixAssets * p.inRepairRate)
      && (forall j :: w + p.warranty <= j < n ==> m[j] == fixAssets * p.outRepairRate)
      && m[0] == inYears as real * (fixAssets * p.inRepairRate)
                 + (p.operatePeriod - inYears) as real * (fixAssets * p.outRepairRate)
  {
    var w, n, m := BuildCells(p) + 1, Rows(p), Maintenance(p, fixAssets);
    var inYears := if p.warranty <= p.operatePeriod then p.warranty else p.operatePeriod;
    var inRepair, outRepair := fixAssets * p.inRepairRate, fixAssets * p.outRepairRate;
    forall j | 1 <= j < n
      ensures m[j] == (if j < w then 0.0 else if j < w + inYears then inRepair else outRepair)
    {
    }
    TwoBlockTotal(m, w, w + inYears, inRepair, outRepair);
  }

  /**
   * Income-tax holiday: nothing in operating years 1-3 or on a non-positive
   * taxable income, half the rate in years 4-6, the full rate from year 7, and
   * nothing during construction.
   */
  lemma IncomeTaxHoliday(p: Params, taxable: seq<real>)
    requires Admissible(p) && |taxable| == Rows(p)
    ensures var w, n, t, rate := BuildCells(p) + 1, Rows(p), IncomeTax(p, taxable), p.incomeTaxRate;
      && (forall j :: 1 <= j < n && (j < w + 3 || taxable[j] <= 0.0) ==> t[j] == 0.0)
      && (forall j :: w + 3 <= j < w + 6 && j < n && taxable[j] > 0.0 ==> t[j] == taxable[j] * rate / 2.0)
      && (forall j :: w + 6 <= j < n && taxable[j] > 0.0 ==> t[j] == taxable[j] * rate)
  {
  }

  /** With a non-negative tax rate no slot of the income tax, its total included, is negative. */
  lemma IncomeTaxNonNegative(p: Params, taxable: seq<real>)
    requires Admissible(p) && |taxable| == Rows(p) && p.incomeTaxRate >= 0.0
    ensures forall j :: 0 <= j < Rows(p) ==> IncomeTax(p, taxable)[j] >= 0.0
  {
    var t := IncomeTax(p, taxable);
    forall j | 1 <= j < Rows(p) ensures t[j] >= 0.0 {
      if taxable[j] > 0.0 {
        assert taxable[j] * p.incomeTaxRate >= 0.0;
      }
    }
    SumNonNegative(t[1..]);
  }

  /**
   * The after-tax project flow is the pre-tax flow less income tax in every slot,
   * so with a non-negative tax rate it never exceeds the pre-tax flow.
   */
  lemma AfterTaxBelowPreTax(p: Params, costList: seq<real>, cashList: seq<real>)
    requires Admissible(p) && |costList| == |cashList| == Rows(p)
    ensures forall j :: 0 <= j < Rows(p) ==>
      AfterTaxFlow(p, costList, cashList)[j] == PreTaxFlow(p, costList, cashList)[j] - RunIncomeTax(p, costList)[j]
    ensures p.incomeTaxRate >= 0.0 ==>
      forall j :: 0 <= j < Rows(p) ==> AfterTaxFlow(p, costList, cashList)[j] <= PreTaxFlow(p, costList, cashList)[j]
  {
    if p.incomeTaxRate >= 0.0 {
      IncomeTaxNonNegative(p, Profit(p, costList));
    }
  }

  /** The credit balance starts at the deduction and each year drops by the previous year's output VAT. */
  lemma BalanceRecurrence(p: Params, vat: seq<real>, deduction: real)
    requires Admissible(p) && |vat| == Rows(p)
    ensures var w, bal := BuildCells(p) + 1, Balance(p, vat, deduction);
      && bal[w] == deduction
      && forall j :: w < j < Rows(p) ==> bal[j] == bal[j - 1] - vat[j - 1]
  {
    var w, bal := BuildCells(p) + 1, Balance(p, vat, deduction);
    assert vat[w..w] == [];
    forall j | w < j < Rows(p) ensures bal[j] == bal[j - 1] - vat[j - 1] {
      assert vat[w..j][..j - w - 1] == vat[w..j - 1];
    }
  }

  /** While output VAT is non-negative the credit balance never rises. */
  lemma BalanceNonIncreasing(p: Params, vat: seq<real>, deduction: real)
    requires Admissible(p) && |vat| == Rows(p)
    requires forall j :: BuildCells(p) + 1 <= j < Rows(p) ==> vat[j] >= 0.0
    ensures var w, bal := BuildCells(p) + 1, Balance(p, vat, deduction);
      forall j, j' :: w <= j <= j' < Rows(p) ==> bal[j'] <= bal[j]
  {
    var w, bal := BuildCells(p) + 1, Balance(p, vat, deduction);
    forall j, j' | w <= j <= j' < Rows(p) ensures bal[j'] <= bal[j] {
      SumSplit(vat[w..j'], j - w);
      assert vat[w..j'][..j - w] == vat[w..j];
      assert vat[w..j'][j - w..] == vat[j..j'];
      SumNonNegative(vat[j..j']);
    }
  }

  function Max(x: real, y: real): real { if x >= y then x else y }

  /** For non-negative output VAT a levy falls on exactly the VAT the positive part of the credit leaves uncovered. */
  lemma LevyOnUncoveredVat(balance: real, vat: real, rate: real)
    requires vat >= 0.0
    ensures Levy(balance, vat, rate) == Max(0.0, vat - Max(balance, 0.0)) * rate
  {
    if balance <= 0.0 {
      assert Max(0.0, vat - Max(balance, 0.0)) == vat;
    } else if balance - vat <= 0.0 {
      assert Max(0.0, vat - Max(balance, 0.0)) == vat - balance;
    } else {
      assert Max(0.0, vat - Max(balance, 0.0)) == 0.0;
    }
  }

  /**
   * For non-negative output VAT the credit absorbs min(vat, max(balance, 0)),
   * and what it absorbs plus what the levy falls on is the whole output VAT.
   */
  lemma AbsorbedSplit(balance: real, vat: real)
    requires vat >= 0.0
    ensures Absorbed(balance, vat) == (if vat <= Max(balance, 0.0) then vat else Max(balance, 0.0))
    ensures Absorbed(balance, vat) + Max(0.0, vat - Max(balance, 0.0)) == vat
  {
    if balance <= 0.0 {
      assert Max(0.0, vat - Max(balance, 0.0)) == vat;
    } else if balance - vat <= 0.0 {
      assert Max(0.0, vat - Max(balance, 0.0)) == vat - balance;
    } else {
      assert Max(0.0, vat - Max(balance, 0.0)) == 0.0;
    }
  }

  /**
   * In the absolute slots B+1 .. operate_period-1 the absorbed VAT of a year with
   * non-negative output VAT is min(vat, max(balance, 0)), and together with the
   * VAT the surcharges fall on it makes up that year's output VAT.
   */
  lemma VatTurnYear(p: Params, vat: seq<real>, deduction: real, j: nat)
    requires Admissible(p) && |vat| == Rows(p) && BuildCells(p) + 1 <= j < p.operatePeriod && vat[j] >= 0.0
    ensures var turn, credit := VatTurn(p, vat, deduction)[j], Max(Balance(p, vat, deduction)[j], 0.0);
      && turn == (if vat[j] <= credit then vat[j] else credit)
      && turn + Max(0.0, vat[j] - credit) == vat[j]
  {
    assert VatTurn(p, vat, deduction)[j] == Absorbed(Balance(p, vat, deduction)[j], vat[j]);
    AbsorbedSplit(Balance(p, vat, deduction)[j], vat[j]);
  }

  /** The refund on a full levy is the refund rate applied to the VAT itself. */
  lemma FullRefund(vat: real, taxRate: real, refundRate: real)
    requires taxRate != 0.0
    ensures (vat * taxRate) * (refundRate / taxRate) == vat * refundRate
  {
    calc {
      (vat * taxRate) * (refundRate / taxRate);
      vat * (taxRate * (refundRate / taxRate));
      vat * refundRate;
    }
  }

  /**
   * Once the credit is used up, the city-construction tax and the education
   * surcharge fall on the whole output VAT of that year, and the refund is the
   * refund rate times that VAT.
   */
  lemma ExhaustedCredit(p: Params, vat: seq<real>, deduction: real)
    requires Admissible(p) && |vat| == Rows(p)
    ensures var w, bal := BuildCells(p) + 1, Balance(p, vat, deduction);
      forall j :: w <= j < Rows(p) && bal[j] <= 0.0 ==>
        && BuildTax(p, vat, deduction)[j] == vat[j] * p.buildTaxRate
        && EduSurcharge(p, vat, deduction)[j] == vat[j] * p.eduSurchargeRate
        && VatReturn(p, vat, deduction)[j] == vat[j] * p.vatRefundRate
  {
    var w, bal := BuildCells(p) + 1, Balance(p, vat, deduction);
    forall j | w <= j < Rows(p) && bal[j] <= 0.0
      ensures VatReturn(p, vat, deduction)[j] == vat[j] * p.vatRefundRate
    {
      ExhaustedYear(p, vat, deduction, j);
    }
  }

  /** One year of ExhaustedCredit. */
  lemma ExhaustedYear(p: Params, vat: seq<real>, deduction: real, j: nat)
    requires Admissible(p) && |vat| == Rows(p)
    requires BuildCells(p) + 1 <= j < Rows(p) && Balance(p, vat, deduction)[j] <= 0.0
    ensures VatReturn(p, vat, deduction)[j] == vat[j] * p.vatRefundRate
  {
    assert BuildTax(p, vat, deduction)[j] == vat[j] * p.buildTaxRate;
    FullRefund(vat[j], p.buildTaxRate, p.vatRefundRate);
  }

  /** The absorbed-VAT subsidy is zero during construction and from absolute slot `operatePeriod` on. */
  lemma VatTurnStopsAtOperatePeriod(p: Params, vat: seq<real>, deduction: real)
    requires Admissible(p) && |vat| == Rows(p)
    ensures forall j :: 1 <= j < Rows(p) && (j <= BuildCells(p) || j >= p.operatePeriod) ==>
      VatTurn(p, vat, deduction)[j] == 0.0
  {
  }

  /**
   * Generation: year 1 is capacity*aep/0.93112, year 2 is 98% of year 1, and year
   * 3+i is year 2 times (0.9755 - 0.0045*i), a decline linear in i.
   */
  lemma GenerationCurve(p: Params)
    requires Admissible(p)
    ensures var w, power := BuildCells(p) + 1, Power(p);
      && power[w] == p.capacity * p.aep / GenerationNorm
      && power[w + 1] == power[w] * 0.98
      && (forall j :: w + 2 <= j < Rows(p) ==> power[j] == power[w + 1] * (0.9755 - (j - w - 2) as real * 0.0045))
  {
    var w, power := BuildCells(p) + 1, Power(p);
    forall j | w + 2 <= j < Rows(p) ensures power[j] == power[w + 1] * (0.9755 - (j - w - 2) as real * 0.0045) {
      assert power[j] == Declined(power[w + 1], j - w - 2);
    }
  }

  /**
   * In operating years the sales at the VAT-inclusive price split into the income
   * net of VAT and that VAT; during construction there is neither.
   */
  lemma SalesSplit(p: Params)
    requires Admissible(p)
    ensures var w, power, income, vat := BuildCells(p) + 1, Power(p), Income(p), Vat(p);
      && (forall j :: w <= j < Rows(p) ==> income[j] * (1.0 + p.vatRate) == power[j] * p.price)
      && (forall j :: w <= j < Rows(p) ==> vat[j] * (1.0 + p.vatRate) == income[j] * p.vatRate)
      && (forall j :: 1 <= j < w ==> income[j] == 0.0 && vat[j] == 0.0)
  {
  }

  /** Multiplying by a positive factor keeps a strict order. */
  lemma MulStrict(a: real, x: real, y: real)
    requires a > 0.0 && x < y
    ensures a * x < a * y
  {
  }

  /** With positive capacity and output hours, generation falls strictly every operating year. */
  lemma GenerationDeclines(p: Params)
    requires Admissible(p) && p.capacity * p.aep > 0.0
    ensures var w, power := BuildCells(p) + 1, Power(p);
      forall j :: w <= j < Rows(p) - 1 ==> power[j + 1] < power[j]
  {
    var w, power := BuildCells(p) + 1, Power(p);
    var first := FirstYearPower(p);
    var second := first * 0.98;
    MulStrict(first, 0.98, 1.0);
    forall j | w <= j < Rows(p) - 1 ensures power[j + 1] < power[j] {
      if j == w + 1 {
        assert power[j + 1] == Declined(second, 0);
        MulStrict(second, 0.9755, 1.0);
      } else if j >= w + 2 {
        assert power[j + 1] == Declined(second, j - w - 1) && power[j] == Declined(second, j - w - 2);
        MulStrict(second, 0.9755 - (j - w - 1) as real * 0.0045, 0.9755 - (j - w - 2) as real * 0.0045);
      }
    }
  }

  /** The operating cost keeps the slot-0 convention. */
  lemma OperateCostTotal(p: Params, costList: seq<real>)
    requires Admissible(p) && |costList| == Rows(p) && IsTotal(costList)
    ensures IsTotal(RunOperateCost(p, costList))
  {
    var fa := FixAssets(p);
    var m1 := Add(Maintenance(p, fa), Wage(p));
    AddKeepsTotal(Maintenance(p, fa), Wage(p));
    var m2 := Add(m1, Insurance(p, fa));
    AddKeepsTotal(m1, Insurance(p, fa));
    var m3 := Add(m2, Material(p));
    AddKeepsTotal(m2, Material(p));
    AddKeepsTotal(m3, OtherExpense(p));
    AddKeepsTotal(Add(m3, OtherExpense(p)), costList);
  }

  /** The VAT surcharges, the subsidies and the interest keep the slot-0 convention. */
  lemma SurchargesTotal(p: Params)
    requires Admissible(p)
    ensures IsTotal(RunOperateTax(p)) && IsTotal(RunSubside(p)) && IsTotal(RunInterest(p))
  {
    var vat, vd := Vat(p), VatDeduction(p);
    AddKeepsTotal(BuildTax(p, vat, vd), EduSurcharge(p, vat, vd));
    ScaleKeepsTotal(BuildTax(p, vat, vd), RefundFactor(p));
    AddKeepsTotal(VatReturn(p, vat, vd), VatTurn(p, vat, vd));
    AddKeepsTotal(LongInterest(p, LongLoanOf(p)), WorkingInterest(p, WorkingLoanOf(p)));
  }

  /** Both project flows keep the slot-0 convention when the auxiliary series do. */
  lemma ProjectFlowTotals(p: Params, costList: seq<real>, cashList: seq<real>)
    requires Admissible(p) && |costList| == |cashList| == Rows(p) && IsTotal(costList) && IsTotal(cashList)
    ensures IsTotal(PreTaxFlow(p, costList, cashList)) && IsTotal(AfterTaxFlow(p, costList, cashList))
  {
    OperateCostTotal(p, costList);
    SurchargesTotal(p);
    var i1 := Add(Income(p), RunSubside(p));
    AddKeepsTotal(Income(p), RunSubside(p));
    var i2 := Add(i1, RecoverAsset(p, FixAssets(p)));
    AddKeepsTotal(i1, RecoverAsset(p, FixAssets(p)));
    AddKeepsTotal(i2, RecoverProWorking(p));
    var o1 := Add(BuildInvestment(p), WorkingCapital(p));
    AddKeepsTotal(BuildInvestment(p), WorkingCapital(p));
    var o2 := Add(o1, RunOperateCost(p, costList));
    AddKeepsTotal(o1, RunOperateCost(p, costList));
    AddKeepsTotal(o2, RunOperateTax(p));
    SubKeepsTotal(ProInflow(p), ProOutflow(p, costList));
    AddKeepsTotal(Sub(ProInflow(p), ProOutflow(p, costList)), cashList);
    SubKeepsTotal(PreTaxFlow(p, costList, cashList), RunIncomeTax(p, costList));
  }

  /** The equity inflow keeps the slot-0 convention. */
  lemma CapInflowTotal(p: Params)
    requires Admissible(p)
    ensures IsTotal(CapInflow(p))
  {
    SurchargesTotal(p);
    var i1 := Add(Income(p), RunSubside(p));
    AddKeepsTotal(Income(p), RunSubside(p));
    var i2 := Add(i1, RecoverAsset(p, FixAssets(p)));
    AddKeepsTotal(i1, RecoverAsset(p, FixAssets(p)));
    RecoverCapWorkingTotal(p);
    AddKeepsTotal(i2, RecoverCapWorking(p));
  }

  /**
   * The equity working-capital recovery, written to slot 0 and to the final year,
   * keeps the slot-0 convention because the final year is its only year slot.
   */
  lemma RecoverCapWorkingTotal(p: Params)
    requires Admissible(p)
    ensures IsTotal(RecoverCapWorking(p))
  {
    var n, rcw := Rows(p), RecoverCapWorking(p);
    SumBlock(rcw[1..], n - 2, n - 1, rcw[0]);
  }

  /** The equity outflow keeps the slot-0 convention when the cost-adjustment series does. */
  lemma CapOutflowTotal(p: Params, costList: seq<real>)
    requires Admissible(p) && |costList| == Rows(p) && IsTotal(costList)
    ensures IsTotal(CapOutflow(p, costList))
  {
    OperateCostTotal(p, costList);
    SurchargesTotal(p);
    var capital, lp := Capital(p), LongPrincipal(p, LongLoanOf(p));
    var c1 := Add(capital, lp);
    AddKeepsTotal(capital, lp);
    var c2 := Add(c1, RunInterest(p));
    AddKeepsTotal(c1, RunInterest(p));
    var c3 := Add(c2, RunOperateCost(p, costList));
    AddKeepsTotal(c2, RunOperateCost(p, costList));
    var c4 := Add(c3, RunOperateTax(p));
    AddKeepsTotal(c3, RunOperateTax(p));
    AddKeepsTotal(c4, RunIncomeTax(p, costList));
  }

  /** The equity flow keeps the slot-0 convention when the auxiliary series do. */
  lemma EquityFlowTotal(p: Params, costList: seq<real>, capList: seq<real>)
    requires Admissible(p) && |costList| == |capList| == Rows(p) && IsTotal(costList) && IsTotal(capList)
    ensures IsTotal(EquityFlow(p, costList, capList))
  {
    CapInflowTotal(p);
    CapOutflowTotal(p, costList);
    SubKeepsTotal(CapInflow(p), CapOutflow(p, costList));
    AddKeepsTotal(Sub(CapInflow(p), CapOutflow(p, costList)), capList);
  }

  /** With the auxiliary series reset to zeros, slot 0 of each net flow is the total of its year slots. */
  lemma NetFlowTotals(p: Params)
    requires Admissible(p)
    ensures var z := Zeros(Rows(p));
      IsTotal(PreTaxFlow(p, z, z)) && IsTotal(AfterTaxFlow(p, z, z)) && IsTotal(EquityFlow(p, z, z))
  {
    var z := Zeros(Rows(p));
    ZerosAreTotal(Rows(p));
    ProjectFlowTotals(p, z, z);
    EquityFlowTotal(p, z, z);
  }

  /** The auxiliary series are zeros when used, so they add nothing to the operating cost or the net flows. */
  lemma AuxiliaryListsAddNothing(p: Params, fixAssets: real)
    requires Admissible(p)
    ensures var z := Zeros(Rows(p));
      && OperateCost(p, fixAssets, z) ==
           Add(Add(Add(Add(Maintenance(p, fixAssets), Wage(p)), Insurance(p, fixAssets)), Material(p)), OtherExpense(p))
      && PreTaxFlow(p, z, z) == Sub(ProInflow(p), ProOutflow(p, z))
      && EquityFlow(p, z, z) == Sub(CapInflow(p), CapOutflow(p, z))
  {
    AddZeros(Add(Add(Add(Add(Maintenance(p, fixAssets), Wage(p)), Insurance(p, fixAssets)), Material(p)), OtherExpense(p)));
    AddZeros(Sub(ProInflow(p), ProOutflow(p, Zeros(Rows(p)))));
    AddZeros(Sub(CapInflow(p), CapOutflow(p, Zeros(Rows(p)))));
  }

  /**
   * Every returned flow has one slot per construction and operating year, and
   * with a non-negative tax rate the after-tax flow never exceeds the pre-tax flow.
   */
  lemma ProjectShape(p: Params)
    requires Admissible(p)
    ensures var f, n := Project(p), Rows(p) - 1;
      && |f.preTax| == n && |f.afterTax| == n && |f.equity| == n
      && (p.incomeTaxRate >= 0.0 ==> forall i :: 0 <= i < n ==> f.afterTax[i] <= f.preTax[i])
  {
    var r := Resolve(p);
    ResolveIdempotent(p);
    var z := Zeros(Rows(r));
    AfterTaxBelowPreTax(r, z, z);
  }

  /**
   * The investment plan and its financing read none of the cost components, so
   * computing them before or after the cost write-back gives the same series.
   */
  lemma InvestmentIgnoresCosts(p: Params)
    requires Admissible(p)
    ensures var r := Resolve(p);
      && Admissible(r) && BuildCells(r) == BuildCells(p) && Rows(r) == Rows(p)
      && BuildInvestment(r) == BuildInvestment(p) && BuildInterest(r) == BuildInterest(p)
      && WorkingCapital(r) == WorkingCapital(p) && TotalInvestment(r) == TotalInvestment(p)
      && Capital(r) == Capital(p) && LongLoan(r) == LongLoan(p) && WorkingLoan(r) == WorkingLoan(p)
  {
    var r := Resolve(p);
    assert HalfYearInterest(r, p.staticInvestment) == HalfYearInterest(p, p.staticInvestment);
    assert WorkingNeed(r) == WorkingNeed(p);
  }
}
