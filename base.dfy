/** Class Finance: the project boundary parameters and the com_finance evaluation. */
module Base {
  import opened Numeric
  import opened Parameters
  import opened Projection
  import opened ProjectionFacts
  import opened Engine

  class Finance {
    var capacity: real
    var aep: real
    var staticInvestment: real
    var price: real
    var capitalRatio: real
    var workingRatio: real
    var equipmentCost: real
    var equipmentRatio: real
    var installCost: real
    var installRatio: real
    var buildCost: real
    var buildRatio: real
    var otherCost: real
    var otherRatio: real
    var loanRate: real
    var workingRate: real
    var rateDiscount: real
    var incomeTaxRate: real
    var vatRate: real
    var vatRefundRate: real
    var buildTaxRate: real
    var eduSurchargeRate: real
    var workers: int
    var laborCost: real
    var inRepairRate: real
    var outRepairRate: real
    var warranty: nat
    var depreciationPeriod: nat
    var insuranceRate: real
    var materialQuota: real
    var otherQuota: real
    var workingQuota: real
    var providentRate: real
    var operatePeriod: nat
    var buildPeriod: real
    var loanPeriod: nat
    var gracePeriod: int
    var residualRate: real
    /** The three auxiliary series added to the operating cost, the project flow and the equity flow. */
    var costList: seq<real>
    var cashList: seq<real>
    var capList: seq<real>

    /** The current parameter values. */
    function Snapshot(): (p: Params)
      reads this
      ensures p.price == price && p.aep == aep && p.equipmentCost == equipmentCost
    {
      Params(
        capacity, aep, staticInvestment, price, capitalRatio, workingRatio,
        equipmentCost, equipmentRatio, installCost, installRatio, buildCost, buildRatio, otherCost, otherRatio,
        loanRate, workingRate, rateDiscount, incomeTaxRate, vatRate, vatRefundRate, buildTaxRate, eduSurchargeRate,
        workers, laborCost, inRepairRate, outRepairRate, warranty, depreciationPeriod, insuranceRate,
        materialQuota, otherQuota, workingQuota, providentRate, operatePeriod, buildPeriod, loanPeriod,
        gracePeriod, residualRate)
    }

    /** The three auxiliary series are `n` zeros each, as com_finance leaves them. */
    predicate Cleared(n: nat)
      reads this
    {
      costList == Zeros(n) && cashList == Zeros(n) && capList == Zeros(n)
    }

    /** Stores every parameter as given, the auxiliary series included. */
    constructor(p: Params, costs: seq<real>, cash: seq<real>, cap: seq<real>)
      ensures Snapshot() == p && costList == costs && cashList == cash && capList == cap
    {
      capacity, aep, staticInvestment, price := p.capacity, p.aep, p.staticInvestment, p.price;
      capitalRatio, workingRatio := p.capitalRatio, p.workingRatio;
      equipmentCost, equipmentRatio, installCost, installRatio := p.equipmentCost, p.equipmentRatio, p.installCost, p.installRatio;
      buildCost, buildRatio, otherCost, otherRatio := p.buildCost, p.buildRatio, p.otherCost, p.otherRatio;
      loanRate, workingRate, rateDiscount := p.loanRate, p.workingRate, p.rateDiscount;
      incomeTaxRate, vatRate, vatRefundRate := p.incomeTaxRate, p.vatRate, p.vatRefundRate;
      buildTaxRate, eduSurchargeRate := p.buildTaxRate, p.eduSurchargeRate;
      workers, laborCost, inRepairRate, outRepairRate := p.workers, p.laborCost, p.inRepairRate, p.outRepairRate;
      warranty, depreciationPeriod, insuranceRate := p.warranty, p.depreciationPeriod, p.insuranceRate;
      materialQuota, otherQuota, workingQuota, providentRate := p.materialQuota, p.otherQuota, p.workingQuota, p.providentRate;
      operatePeriod, buildPeriod, loanPeriod := p.operatePeriod, p.buildPeriod, p.loanPeriod;
      gracePeriod, residualRate := p.gracePeriod, p.residualRate;
      costList, cashList, capList := costs, cash, cap;
    }

    /** `self.cost_list = np.zeros(row_cells)`. */
    method ResetCostList(n: nat)
      modifies this
      ensures Snapshot() == old(Snapshot()) && costList == Zeros(n)
      ensures cashList == old(cashList) && capList == old(capList)
    {
      costList := Zeros(n);
    }

    /** `self.cash_list = np.zeros(row_cells)`. */
    method ResetCashList(n: nat)
      modifies this
      ensures Snapshot() == old(Snapshot()) && cashList == Zeros(n)
      ensures costList == old(costList) && capList == old(capList)
    {
      cashList := Zeros(n);
    }

    /** `self.cap_list = np.zeros(row_cells)`. */
    method ResetCapList(n: nat)
      modifies this
      ensures Snapshot() == old(Snapshot()) && capList == Zeros(n)
      ensures costList == old(costList) && cashList == old(cashList)
    {
      capList := Zeros(n);
    }

    /**
     * The cost write-back inside com_finance: each cost component is re-derived
     * from the static investment when its ratio is non-zero.
     */
    method DeriveCosts()
      modifies this
      ensures Snapshot() == Resolve(old(Snapshot()))
      ensures costList == old(costList) && cashList == old(cashList) && capList == old(capList)
    {
      WriteBackEquipmentCost();
      WriteBackInstallCost();
      WriteBackBuildCost();
      WriteBackOtherCost();
    }

    /** Writes back the equipment purchase cost when its ratio is non-zero. */
    method WriteBackEquipmentCost()
      modifies this
      ensures Snapshot() == old(Snapshot()).(equipmentCost := Derived(old(staticInvestment), old(equipmentRatio), old(equipmentCost)))
      ensures costList == old(costList) && cashList == old(cashList) && capList == old(capList)
    {
      if equipmentRatio != 0.0 {
        equipmentCost := CostShare(staticInvestment, equipmentRatio);
      }
    }

    /** Writes back the installation cost when its ratio is non-zero. */
    method WriteBackInstallCost()
      modifies this
      ensures Snapshot() == old(Snapshot()).(installCost := Derived(old(staticInvestment), old(installRatio), old(installCost)))
      ensures costList == old(costList) && cashList == old(cashList) && capList == old(capList)
    {
      if installRatio != 0.0 {
        installCost := CostShare(staticInvestment, installRatio);
      }
    }

    /** Writes back the construction works cost when its ratio is non-zero. */
    method WriteBackBuildCost()
      modifies this
      ensures Snapshot() == old(Snapshot()).(buildCost := Derived(old(staticInvestment), old(buildRatio), old(buildCost)))
      ensures costList == old(costList) && cashList == old(cashList) && capList == old(capList)
    {
      if buildRatio != 0.0 {
        buildCost := CostShare(staticInvestment, buildRatio);
      }
    }

    /** Writes back the other cost when its ratio is non-zero. */
    method WriteBackOtherCost()
      modifies this
      ensures Snapshot() == old(Snapshot()).(otherCost := Derived(old(staticInvestment), old(otherRatio), old(otherCost)))
      ensures costList == old(costList) && cashList == old(cashList) && capList == old(capList)
    {
      if otherRatio != 0.0 {
        otherCost := CostShare(staticInvestment, otherRatio);
      }
    }

    /**
     * com_finance without the tables: resets the auxiliary series, plans the
     * investment, derives the cost components from their ratios, and returns the
     * pre-tax, after-tax and equity net flows without their total slot.
     */
    method ComFinance() returns (preTax: seq<real>, afterTax: seq<real>, equity: seq<real>)
      requires Admissible(Snapshot())
      modifies this
      ensures Snapshot() == Resolve(old(Snapshot()))
      ensures costList == cashList == capList == Zeros(Rows(Snapshot()))
      ensures Flows(preTax, afterTax, equity) == Project(old(Snapshot()))
    {
      var p := Snapshot();
      var n := Rows(p);
      ResetCostList(n);
      ResetCashList(n);
      ResetCapList(n);
      var buildInvestment, buildInterest, workingCapital, totalInvestment := InvestmentPlan(p);
      var capital, longLoan, workingLoan := Financing(p, totalInvestment);
      DeriveCosts();
      var r := Snapshot();
      assert r == Resolve(p);
      InvestmentIgnoresCosts(p);
      preTax, afterTax, equity := Evaluate(r, costList, cashList, capList,
        buildInvestment, workingCapital, totalInvestment, capital, longLoan, workingLoan);
    }
  }
}
