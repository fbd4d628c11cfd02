/** The project boundary parameters of one financial evaluation (the fields of class Finance). */
module Parameters {

  /**
   * Amounts are in ten-thousand yuan, capacity in ten-thousand kW, output in
   * full-load hours, price in yuan per kWh. Periods are whole years except the
   * construction period, which may be fractional and is rounded up.
   */
  datatype Params = Params(
    capacity: real, aep: real, staticInvestment: real, price: real,
    capitalRatio: real, workingRatio: real,
    equipmentCost: real, equipmentRatio: real, installCost: real, installRatio: real,
    buildCost: real, buildRatio: real, otherCost: real, otherRatio: real,
    loanRate: real, workingRate: real, rateDiscount: real,
    incomeTaxRate: real, vatRate: real, vatRefundRate: real, buildTaxRate: real, eduSurchargeRate: real,
    workers: int, laborCost: real, inRepairRate: real, outRepairRate: real,
    warranty: nat, depreciationPeriod: nat, insuranceRate: real,
    materialQuota: real, otherQuota: real, workingQuota: real, providentRate: real,
    operatePeriod: nat, buildPeriod: real, loanPeriod: nat, gracePeriod: int, residualRate: real)

  /** Python's math.ceil on a real. */
  function Ceil(x: real): (c: int)
    ensures x <= c as real < x + 1.0
  {
    -((-x).Floor)
  }

  /**
   * The parameter values under which com_finance runs to the end: a positive
   * construction period (otherwise the construction and operating slots
   * coincide), at least two operating years (the second-year generation slot
   * must exist), a loan period within the operating period (the opening-balance
   * loop indexes one slot per loan year), a VAT rate other than -100% (a Python
   * division by zero) and a non-zero city-construction tax rate (numpy would
   * produce inf/nan in the VAT refund).
   */
  predicate Admissible(p: Params)
  {
    p.buildPeriod > 0.0 && p.operatePeriod >= 2 && p.loanPeriod <= p.operatePeriod &&
    p.vatRate != -1.0 && p.buildTaxRate != 0.0
  }

  /** Whole construction years: the number of construction slots in every series. */
  function BuildCells(p: Params): (b: nat)
    requires p.buildPeriod > 0.0
    ensures b >= 1 && p.buildPeriod <= b as real < p.buildPeriod + 1.0
  {
    Ceil(p.buildPeriod)
  }

  /** A cost component derived from the static investment and its ratio. */
  function CostShare(staticInvestment: real, ratio: real): real
  {
    staticInvestment * ratio
  }

  /** One cost component after the write-back: derived when its ratio is non-zero, as supplied otherwise. */
  function Derived(staticInvestment: real, ratio: real, cost: real): real
  {
    if ratio != 0.0 then CostShare(staticInvestment, ratio) else cost
  }

  /** The cost write-back com_finance performs on all four cost components. */
  function Resolve(p: Params): Params
  {
    p.(equipmentCost := Derived(p.staticInvestment, p.equipmentRatio, p.equipmentCost),
       installCost := Derived(p.staticInvestment, p.installRatio, p.installCost),
       buildCost := Derived(p.staticInvestment, p.buildRatio, p.buildCost),
       otherCost := Derived(p.staticInvestment, p.otherRatio, p.otherCost))
  }

  /** Deriving the costs a second time changes nothing, and leaves every other field alone. */
  lemma ResolveIdempotent(p: Params)
    ensures Resolve(Resolve(p)) == Resolve(p)
    ensures Admissible(Resolve(p)) == Admissible(p)
    ensures Resolve(p).price == p.price && Resolve(p).aep == p.aep
  {
  }

  /** The constructor defaults of class Finance. */
  function Defaults(): (p: Params)
    ensures Admissible(p) && BuildCells(p) == 1
  {
    Params(
      capacity := 100.0, aep := 2500.0, staticInvestment := 500000.0, price := 0.2829,
      capitalRatio := 0.20, workingRatio := 0.3,
      equipmentCost := 0.0, equipmentRatio := 0.7, installCost := 0.0, installRatio := 0.07,
      buildCost := 0.0, buildRatio := 0.13, otherCost := 0.0, otherRatio := 0.1,
      loanRate := 0.046, workingRate := 0.0435, rateDiscount := 1.0,
      incomeTaxRate := 0.25, vatRate := 0.13, vatRefundRate := 0.5, buildTaxRate := 0.05, eduSurchargeRate := 0.05,
      workers := 25, laborCost := 16.0, inRepairRate := 0.005, outRepairRate := 0.015,
      warranty := 5, depreciationPeriod := 20, insuranceRate := 0.0025,
      materialQuota := 10.0, otherQuota := 30.0, workingQuota := 30.0, providentRate := 0.1,
      operatePeriod := 20, buildPeriod := 1.0, loanPeriod := 15, gracePeriod := 1, residualRate := 0.05)
  }
}
