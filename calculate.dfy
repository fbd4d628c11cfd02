/**
 * cal_price and cal_aep: step one parameter of a Finance object up or down by a
 * fixed amount, re-running com_finance after every step, until the internal
 * rate of return of the chosen flows reaches its target. The rate of return is
 * supplied as a function (the source calls a foreign root-finder).
 */
module Calculate {
  import opened Parameters
  import opened Projection
  import opened Base

  /** The parameter a search moves: the tariff (cal_price) or the full-load hours (cal_aep). */
  datatype Knob = Price | Aep

  /** The fixed step: 0.0001 yuan/kWh for the tariff, one hour for the output. */
  function Step(knob: Knob): (s: real)
    ensures s > 0.0
  {
    match knob
    case Price => 0.0001
    case Aep => 1.0
  }

  function Setting(p: Params, knob: Knob): real
  {
    match knob
    case Price => p.price
    case Aep => p.aep
  }

  /** `p` with the searched parameter set to `x` and every other field kept. */
  function WithSetting(p: Params, knob: Knob, x: real): (q: Params)
    ensures Setting(q, knob) == x
  {
    match knob
    case Price => p.(price := x)
    case Aep => p.(aep := x)
  }

  /** The value of the searched parameter after `k` steps of `delta` from `x0`. */
  function Point(x0: real, delta: real, k: nat): real
  {
    x0 + k as real * delta
  }

  /** The IRR targets the modes compare against. */
  datatype Targets = Targets(proIrr: real, capIrr: real)

  /**
   * The flows com_finance returns for parameters `q`, as a total function: the
   * searches below are stated over any `run` that agrees with it.
   */
  function Evaluation(q: Params): Flows
  {
    if Admissible(q) then Project(q) else Flows([], [], [])
  }

  /** `run` gives the flows com_finance returns on every admissible parameter set. */
  ghost predicate Evaluates(run: Params -> Flows)
  {
    forall q {:trigger Project(q)} :: Admissible(q) ==> run(q) == Project(q)
  }

  /** How far the pre-tax project IRR lies above its target when the parameter is `x`. */
  function ProGap(run: Params -> Flows, r: Params, knob: Knob, x: real, irr: seq<real> -> real, t: Targets): real
  {
    irr(run(WithSetting(r, knob, x)).preTax) - t.proIrr
  }

  /** How far the equity IRR lies above its target when the parameter is `x`. */
  function CapGap(run: Params -> Flows, r: Params, knob: Knob, x: real, irr: seq<real> -> real, t: Targets): real
  {
    irr(run(WithSetting(r, knob, x)).equity) - t.capIrr
  }

  /** The two gaps after `k` steps of `delta` from the parameters `r`. */
  function ProAt(run: Params -> Flows, r: Params, knob: Knob, delta: real, k: nat, irr: seq<real> -> real, t: Targets): real
  {
    ProGap(run, r, knob, Point(Setting(r, knob), delta, k), irr, t)
  }

  function CapAt(run: Params -> Flows, r: Params, knob: Knob, delta: real, k: nat, irr: seq<real> -> real, t: Targets): real
  {
    CapGap(run, r, knob, Point(Setting(r, knob), delta, k), irr, t)
  }

  /** Mode 0 watches the equity gap, mode 1 the project gap. */
  function GapAt(run: Params -> Flows, r: Params, knob: Knob, delta: real, k: nat, irr: seq<real> -> real,
                 t: Targets, mode: int): real
  {
    if mode == 0 then CapAt(run, r, knob, delta, k, irr, t) else ProAt(run, r, knob, delta, k, irr, t)
  }

  /**
   * The gaps watched in mode `mode` after `k` and after `k + 1` steps lie
   * strictly on the same side of the target: their product is positive.
   */
  predicate SameSide(run: Params -> Flows, r: Params, knob: Knob, delta: real, k: nat, irr: seq<real> -> real,
                     t: Targets, mode: int)
  {
    GapAt(run, r, knob, delta, k, irr, t, mode) * GapAt(run, r, knob, delta, k + 1, irr, t, mode) > 0.0
  }

  /** The four cases mode 2 distinguishes on the initial gaps (equity gap `c`, project gap `g`). */
  datatype Case = BothMet | ProjectShort | EquityShort | BothShort

  function Classify(c: real, g: real): Case
  {
    if c >= 0.0 && g >= 0.0 then BothMet
    else if c >= 0.0 && g <= 0.0 then ProjectShort
    else if c <= 0.0 && g >= 0.0 then EquityShort
    else BothShort
  }

  /** The loop flag of each mode-2 case. */
  predicate Continues(k: Case, c: real, g: real)
  {
    match k
    case BothMet => c * g > 0.0
    case ProjectShort => g < 0.0
    case EquityShort => c < 0.0
    case BothShort => c < 0.0 || g < 0.0
  }

  /** The result of a search: the final parameter value, the signed step, and how many steps were taken. */
  datatype Outcome = Outcome(value: real, delta: real, steps: nat, converged: bool)

  /**
   * Setting the searched parameter commutes with the cost write-back and keeps
   * the parameters admissible, so once the costs are written back a further
   * run writes nothing more back, whatever the setting.
   */
  lemma SettingCommutes(p: Params, knob: Knob, x: real)
    requires Admissible(p)
    ensures Resolve(WithSetting(p, knob, x)) == WithSetting(Resolve(p), knob, x)
    ensures Admissible(WithSetting(p, knob, x))
    ensures Resolve(p) == p ==> Resolve(WithSetting(p, knob, x)) == WithSetting(p, knob, x)
    ensures WithSetting(p, knob, Setting(p, knob)) == p
  {
    ResolveIdempotent(p);
  }

  /** A run on parameters whose costs are already written back gives the same flows. */
  lemma ProjectResolved(p: Params)
    requires Admissible(p)
    ensures Admissible(Resolve(p)) && Resolve(Resolve(p)) == Resolve(p)
    ensures Project(Resolve(p)) == Project(p)
  {
    ResolveIdempotent(p);
  }

  /** Neither a setting nor the cost write-back changes the number of slots. */
  lemma RowsKept(p: Params, knob: Knob, x: real)
    requires Admissible(p)
    ensures Admissible(WithSetting(p, knob, x)) && Rows(WithSetting(p, knob, x)) == Rows(p)
    ensures Admissible(Resolve(p)) && Rows(Resolve(p)) == Rows(p)
  {
  }

  /** One more step from `k` steps lands on the point of `k + 1` steps. */
  lemma NextPoint(x0: real, delta: real, k: nat)
    ensures Point(x0, delta, k) + delta == Point(x0, delta, k + 1)
  {
  }

  /** `finance.price += delta` or `finance.aep += delta`. */
  method Nudge(finance: Finance, knob: Knob, delta: real)
    modifies finance
    ensures finance.Snapshot() == WithSetting(old(finance.Snapshot()), knob, Setting(old(finance.Snapshot()), knob) + delta)
    ensures finance.costList == old(finance.costList) && finance.cashList == old(finance.cashList)
    ensures finance.capList == old(finance.capList)
  {
    match knob
    case Price => finance.price := finance.price + delta;
    case Aep => finance.aep := finance.aep + delta;
  }

  /** `flow = finance.com_finance()` followed by the IRR of the pre-tax project flow and of the equity flow. */
  method Rerun(finance: Finance, irr: seq<real> -> real) returns (proIrr: real, capIrr: real)
    requires Admissible(finance.Snapshot())
    modifies finance
    ensures finance.Snapshot() == Resolve(old(finance.Snapshot()))
    ensures proIrr == irr(Project(old(finance.Snapshot())).preTax)
    ensures capIrr == irr(Project(old(finance.Snapshot())).equity)
    ensures finance.Cleared(Rows(old(finance.Snapshot())))
  {
    RowsKept(finance.Snapshot(), Price, finance.price);
    var preTax, afterTax, equity := finance.ComFinance();
    proIrr, capIrr := irr(preTax), irr(equity);
  }

  /**
   * What modes 0 and 1 promise about the outcome `o` of a search from the
   * written-back parameters `r`: the direction is upwards exactly when the
   * watched gap starts below zero, every step taken kept the last two gaps on
   * the same side of zero, and a converged search stopped at the first step
   * that did not (or started on the target).
   */
  ghost predicate SignFound(run: Params -> Flows, r: Params, knob: Knob, irr: seq<real> -> real, t: Targets,
                           mode: int, fuel: nat, o: Outcome)
  {
    var gap := GapAt(run, r, knob, 0.0, 0, irr, t, mode);
    && o.delta == (if gap < 0.0 then Step(knob) else -Step(knob))
    && o.value == Point(Setting(r, knob), o.delta, o.steps)
    && o.steps <= fuel && (!o.converged ==> o.steps == fuel)
    && (o.steps > 0 ==> gap != 0.0)
    && (forall i: nat :: i + 1 < o.steps ==> SameSide(run, r, knob, o.delta, i, irr, t, mode))
    && (o.converged && o.steps == 0 ==> gap == 0.0)
    && (o.converged && o.steps > 0 ==> !SameSide(run, r, knob, o.delta, o.steps - 1, irr, t, mode))
  }

  /**
   * What mode 2 promises about the outcome `o`: the direction is upwards
   * exactly when either IRR starts below its target, the loop flag of the
   * initial case held at every step taken, and a converged search stopped at
   * the first point where it did not.
   */
  ghost predicate BothFound(run: Params -> Flows, r: Params, knob: Knob, irr: seq<real> -> real, t: Targets,
                           fuel: nat, o: Outcome)
  {
    var c, g := CapAt(run, r, knob, 0.0, 0, irr, t), ProAt(run, r, knob, 0.0, 0, irr, t);
    && o.delta == (if g < 0.0 || c < 0.0 then Step(knob) else -Step(knob))
    && o.value == Point(Setting(r, knob), o.delta, o.steps)
    && o.steps <= fuel && (!o.converged ==> o.steps == fuel)
    && (forall i: nat :: i < o.steps ==>
          Continues(Classify(c, g), CapAt(run, r, knob, o.delta, i, irr, t), ProAt(run, r, knob, o.delta, i, irr, t)))
    && (o.converged ==>
          !Continues(Classify(c, g), CapAt(run, r, knob, o.delta, o.steps, irr, t), ProAt(run, r, knob, o.delta, o.steps, irr, t)))
  }

  /** What the search of mode `mode` promises about its outcome `o`; any mode other than 0 and 1 is mode 2. */
  ghost predicate Calibrated(run: Params -> Flows, r: Params, knob: Knob, irr: seq<real> -> real, t: Targets,
                            mode: int, fuel: nat, o: Outcome)
  {
    && (mode == 0 || mode == 1 ==> SignFound(run, r, knob, irr, t, mode, fuel, o))
    && (mode != 0 && mode != 1 ==> BothFound(run, r, knob, irr, t, fuel, o))
  }

  /** A positive product of two gaps means both lie strictly on the same side of zero. */
  lemma ProductSign(a: real, b: real)
    ensures a * b > 0.0 <==> (a < 0.0 && b < 0.0) || (a > 0.0 && b > 0.0)
  {
    if a < 0.0 && b >= 0.0 {
      assert a * b <= 0.0;
    } else if a > 0.0 && b <= 0.0 {
      assert a * b <= 0.0;
    }
  }

  /**
   * While each step keeps the watched gap on the same side of zero, every
   * point up to `m` steps lies on the side where the search started.
   */
  lemma {:induction false} StaysOnStartSide(run: Params -> Flows, r: Params, knob: Knob, delta: real,
                                            irr: seq<real> -> real, t: Targets, mode: int, m: nat)
    requires GapAt(run, r, knob, delta, 0, irr, t, mode) != 0.0
    requires forall i: nat :: i < m ==> SameSide(run, r, knob, delta, i, irr, t, mode)
    ensures forall j: nat :: j <= m ==>
      && GapAt(run, r, knob, delta, j, irr, t, mode) != 0.0
      && (GapAt(run, r, knob, delta, j, irr, t, mode) < 0.0 <==> GapAt(run, r, knob, delta, 0, irr, t, mode) < 0.0)
    decreases m
  {
    if m > 0 {
      StaysOnStartSide(run, r, knob, delta, irr, t, mode, m - 1);
      assert SameSide(run, r, knob, delta, m - 1, irr, t, mode);
      ProductSign(GapAt(run, r, knob, delta, m - 1, irr, t, mode), GapAt(run, r, knob, delta, m, irr, t, mode));
    }
  }

  /**
   * Modes 0 and 1 return the first point of the grid at or past the target: a
   * search that starts below the target (and so steps upwards) has the watched
   * IRR below the target at every point before the last and at or above it at
   * the last; one that starts above it, the mirror image.
   */
  lemma SignSearchStopsAtCrossing(run: Params -> Flows, r: Params, knob: Knob, irr: seq<real> -> real, t: Targets,
                                  mode: int, fuel: nat, o: Outcome)
    requires SignFound(run, r, knob, irr, t, mode, fuel, o) && o.converged && o.steps > 0
    ensures var g0 := GapAt(run, r, knob, 0.0, 0, irr, t, mode);
      var last := GapAt(run, r, knob, o.delta, o.steps, irr, t, mode);
      && (g0 < 0.0 ==>
            && o.delta > 0.0 && last >= 0.0
            && forall j: nat :: j < o.steps ==> GapAt(run, r, knob, o.delta, j, irr, t, mode) < 0.0)
      && (g0 > 0.0 ==>
            && o.delta < 0.0 && last <= 0.0
            && forall j: nat :: j < o.steps ==> GapAt(run, r, knob, o.delta, j, irr, t, mode) > 0.0)
  {
    var n := o.steps - 1;
    assert GapAt(run, r, knob, o.delta, 0, irr, t, mode) == GapAt(run, r, knob, 0.0, 0, irr, t, mode);
    StaysOnStartSide(run, r, knob, o.delta, irr, t, mode, n);
    assert !SameSide(run, r, knob, o.delta, n, irr, t, mode);
    ProductSign(GapAt(run, r, knob, o.delta, n, irr, t, mode), GapAt(run, r, knob, o.delta, n + 1, irr, t, mode));
  }

  /**
   * The four mode-2 cases in plain terms, the direction each one steps in, and
   * what holds at the point where a converged search stops: both targets met
   * when either fell short, and one IRR at or past its target when both were
   * met. When the flag of the case is false from the start (in particular when
   * both targets are met and one gap is exactly zero) nothing moves.
   */
  lemma BothSearchCases(run: Params -> Flows, r: Params, knob: Knob, irr: seq<real> -> real, t: Targets,
                        fuel: nat, o: Outcome)
    requires BothFound(run, r, knob, irr, t, fuel, o)
    ensures var c, g := CapAt(run, r, knob, 0.0, 0, irr, t), ProAt(run, r, knob, 0.0, 0, irr, t);
      var c', g' := CapAt(run, r, knob, o.delta, o.steps, irr, t), ProAt(run, r, knob, o.delta, o.steps, irr, t);
      && (Classify(c, g) == BothMet <==> c >= 0.0 && g >= 0.0)
      && (Classify(c, g) == ProjectShort <==> c >= 0.0 && g < 0.0)
      && (Classify(c, g) == EquityShort <==> c < 0.0 && g >= 0.0)
      && (Classify(c, g) == BothShort <==> c < 0.0 && g < 0.0)
      && (o.delta > 0.0 <==> Classify(c, g) != BothMet)
      && (o.converged && Classify(c, g) == ProjectShort ==> g' >= 0.0)
      && (o.converged && Classify(c, g) == EquityShort ==> c' >= 0.0)
      && (o.converged && Classify(c, g) == BothShort ==> c' >= 0.0 && g' >= 0.0)
      && (o.converged && Classify(c, g) == BothMet ==> c' * g' <= 0.0)
      && (!Continues(Classify(c, g), c, g) ==> o.steps == 0 && o.value == Setting(r, knob))
  {
    var c, g := CapAt(run, r, knob, 0.0, 0, irr, t), ProAt(run, r, knob, 0.0, 0, irr, t);
    if o.steps > 0 {
      assert CapAt(run, r, knob, o.delta, 0, irr, t) == c && ProAt(run, r, knob, o.delta, 0, irr, t) == g;
    }
  }

  /**
   * Steps `finance` once more and re-runs it: from the state after `k` steps
   * (the written-back parameters `r` with the setting moved `k` times) to the
   * state after `k + 1` steps, returning the two gaps there.
   */
  method StepOnce(finance: Finance, run: Params -> Flows, ghost r: Params, knob: Knob, delta: real, ghost k: nat,
                  irr: seq<real> -> real, t: Targets)
    returns (pro: real, cap: real)
    requires Evaluates(run) && Admissible(r) && Resolve(r) == r
    requires finance.Snapshot() == WithSetting(r, knob, Point(Setting(r, knob), delta, k))
    modifies finance
    ensures finance.Snapshot() == WithSetting(r, knob, Point(Setting(r, knob), delta, k + 1))
    ensures pro == ProAt(run, r, knob, delta, k + 1, irr, t) && cap == CapAt(run, r, knob, delta, k + 1, irr, t)
    ensures finance.Cleared(Rows(r))
  {
    ghost var x := Point(Setting(r, knob), delta, k + 1);
    Nudge(finance, knob, delta);
    NextPoint(Setting(r, knob), delta, k);
    SettingCommutes(r, knob, x);
    RowsKept(r, knob, x);
    var proIrr, capIrr := Rerun(finance, irr);
    pro, cap := proIrr - t.proIrr, capIrr - t.capIrr;
  }

  /** One step of modes 0 and 1: move and re-run, returning the gap the mode watches. */
  method Advance(finance: Finance, run: Params -> Flows, ghost r: Params, knob: Knob, delta: real, ghost k: nat,
                 irr: seq<real> -> real, t: Targets, mode: int)
    returns (g: real)
    requires Evaluates(run) && Admissible(r) && Resolve(r) == r
    requires finance.Snapshot() == WithSetting(r, knob, Point(Setting(r, knob), delta, k))
    modifies finance
    ensures finance.Snapshot() == WithSetting(r, knob, Point(Setting(r, knob), delta, k + 1))
    ensures g == GapAt(run, r, knob, delta, k + 1, irr, t, mode)
    ensures finance.Cleared(Rows(r))
  {
    var pro, cap := StepOnce(finance, run, r, knob, delta, k, irr, t);
    g := if mode == 0 then cap else pro;
  }

  /**
   * The loop of modes 0 and 1: keep stepping by `delta` while the product of the
   * previous and the current gap stays positive, for at most `fuel` steps.
   */
  method SignSteps(finance: Finance, run: Params -> Flows, ghost r: Params, knob: Knob, irr: seq<real> -> real, t: Targets,
                   mode: int, delta: real, gap: real, fuel: nat)
    returns (k: nat, temp: real, current: real)
    requires Evaluates(run) && Admissible(r) && Resolve(r) == r && finance.Snapshot() == r
    requires gap == GapAt(run, r, knob, delta, 0, irr, t, mode) && finance.Cleared(Rows(r))
    modifies finance
    ensures k <= fuel && !(temp * current > 0.0 && k < fuel)
    ensures finance.Snapshot() == WithSetting(r, knob, Point(Setting(r, knob), delta, k)) && finance.Cleared(Rows(r))
    ensures current == GapAt(run, r, knob, delta, k, irr, t, mode)
    ensures k == 0 ==> temp == current
    ensures k > 0 ==> temp == GapAt(run, r, knob, delta, k - 1, irr, t, mode) && gap != 0.0
    ensures forall i: nat :: i + 1 < k ==> SameSide(run, r, knob, delta, i, irr, t, mode)
  {
    ghost var x0 := Setting(r, knob);
    SettingCommutes(r, knob, x0);
    current, temp := gap, gap;
    k := 0;
    while temp * current > 0.0 && k < fuel
      invariant k <= fuel
      invariant finance.Snapshot() == WithSetting(r, knob, Point(x0, delta, k)) && finance.Cleared(Rows(r))
      invariant current == GapAt(run, r, knob, delta, k, irr, t, mode)
      invariant k == 0 ==> temp == current
      invariant k > 0 ==> temp == GapAt(run, r, knob, delta, k - 1, irr, t, mode) && gap != 0.0
      invariant forall i: nat :: i + 1 < k ==> SameSide(run, r, knob, delta, i, irr, t, mode)
      decreases fuel - k
    {
      assert k > 0 ==> SameSide(run, r, knob, delta, k - 1, irr, t, mode);
      temp := current;
      current := Advance(finance, run, r, knob, delta, k, irr, t, mode);
      k := k + 1;
    }
  }

  /**
   * Modes 0 and 1: step towards the target and stop at the first step across
   * it, detected as the product of the previous and the current gap ceasing to
   * be positive. The loop stops after `fuel` steps at most.
   */
  method SignSearch(finance: Finance, run: Params -> Flows, ghost r: Params, knob: Knob, irr: seq<real> -> real, t: Targets,
                    mode: int, gap: real, fuel: nat)
    returns (outcome: Outcome)
    requires mode == 0 || mode == 1
    requires Evaluates(run) && Admissible(r) && Resolve(r) == r && finance.Snapshot() == r
    requires gap == GapAt(run, r, knob, 0.0, 0, irr, t, mode) && finance.Cleared(Rows(r))
    modifies finance
    ensures finance.Snapshot() == WithSetting(r, knob, outcome.value) && finance.Cleared(Rows(r))
    ensures SignFound(run, r, knob, irr, t, mode, fuel, outcome)
  {
    var delta := if gap < 0.0 then Step(knob) else -Step(knob);
    assert GapAt(run, r, knob, delta, 0, irr, t, mode) == gap;
    var k, temp, current := SignSteps(finance, run, r, knob, irr, t, mode, delta, gap, fuel);
    outcome := Outcome(Setting(finance.Snapshot(), knob), delta, k, !(temp * current > 0.0));
  }

  /**
   * Mode 2: the direction is upwards when either IRR falls short, and the loop
   * flag depends on which of the four cases the initial gaps fall in. The loop
   * stops after `fuel` steps at most.
   */
  method BothSearch(finance: Finance, run: Params -> Flows, ghost r: Params, knob: Knob, irr: seq<real> -> real, t: Targets,
                    pro: real, cap: real, fuel: nat)
    returns (outcome: Outcome, kind: Case)
    requires Evaluates(run) && Admissible(r) && Resolve(r) == r && finance.Snapshot() == r
    requires pro == ProAt(run, r, knob, 0.0, 0, irr, t) && cap == CapAt(run, r, knob, 0.0, 0, irr, t)
    requires finance.Cleared(Rows(r))
    modifies finance
    ensures kind == Classify(cap, pro)
    ensures finance.Snapshot() == WithSetting(r, knob, outcome.value) && finance.Cleared(Rows(r))
    ensures BothFound(run, r, knob, irr, t, fuel, outcome)
  {
    var delta := if pro < 0.0 || cap < 0.0 then Step(knob) else -Step(knob);
    ghost var x0 := Setting(r, knob);
    SettingCommutes(r, knob, x0);
    assert ProAt(run, r, knob, delta, 0, irr, t) == pro && CapAt(run, r, knob, delta, 0, irr, t) == cap;
    kind := Classify(cap, pro);
    var proGap, capGap := pro, cap;
    var flag := Continues(kind, capGap, proGap);
    var k := 0;
    while flag && k < fuel
      decreases fuel - k
      invariant k <= fuel
      invariant finance.Snapshot() == WithSetting(r, knob, Point(x0, delta, k)) && finance.Cleared(Rows(r))
      invariant proGap == ProAt(run, r, knob, delta, k, irr, t) && capGap == CapAt(run, r, knob, delta, k, irr, t)
      invariant flag == Continues(kind, capGap, proGap)
      invariant forall i :: 0 <= i < k ==>
        Continues(kind, CapAt(run, r, knob, delta, i, irr, t), ProAt(run, r, knob, delta, i, irr, t))
    {
      proGap, capGap := StepOnce(finance, run, r, knob, delta, k, irr, t);
      flag := Continues(kind, capGap, proGap);
      k := k + 1;
    }
    outcome := Outcome(Setting(finance.Snapshot(), knob), delta, k, !flag);
  }

  /**
   * The body shared by cal_price and cal_aep: one run on the parameters as
   * supplied, then the search of the requested mode (any mode other than 0
   * and 1 behaves as mode 2).
   */
  method Calibrate(finance: Finance, run: Params -> Flows, knob: Knob, irr: seq<real> -> real, t: Targets, mode: int, fuel: nat)
    returns (outcome: Outcome)
    requires Evaluates(run) && Admissible(finance.Snapshot())
    modifies finance
    ensures var r := Resolve(old(finance.Snapshot()));
      && finance.Snapshot() == WithSetting(r, knob, outcome.value)
      && Calibrated(run, r, knob, irr, t, mode, fuel, outcome)
    ensures finance.Cleared(Rows(old(finance.Snapshot())))
  {
    ghost var p := finance.Snapshot();
    var proIrr, capIrr := Rerun(finance, irr);
    ghost var r := Resolve(p);
    ProjectResolved(p);
    SettingCommutes(r, knob, Setting(r, knob));
    var pro, cap := proIrr - t.proIrr, capIrr - t.capIrr;
    assert pro == ProAt(run, r, knob, 0.0, 0, irr, t) && cap == CapAt(run, r, knob, 0.0, 0, irr, t);
    if mode == 0 {
      outcome := SignSearch(finance, run, r, knob, irr, t, mode, cap, fuel);
    } else if mode == 1 {
      outcome := SignSearch(finance, run, r, knob, irr, t, mode, pro, fuel);
    } else {
      var kind;
      outcome, kind := BothSearch(finance, run, r, knob, irr, t, pro, cap, fuel);
    }
  }

  /** The flows of `Evaluation` are those com_finance computes. */
  lemma EvaluationEvaluates()
    ensures Evaluates(Evaluation)
  {
  }

  /**
   * cal_price: the tariff the search stops at, which is also left in the
   * Finance object, with every other parameter as the cost write-back left it
   * and the three auxiliary series reset to zeros.
   */
  method CalPrice(finance: Finance, irr: seq<real> -> real, fuel: nat,
                  proIrr: real := 0.06, capIrr: real := 0.08, mode: int := 0)
    returns (price: real, outcome: Outcome)
    requires Admissible(finance.Snapshot())
    modifies finance
    ensures var r := Resolve(old(finance.Snapshot()));
      && price == finance.price == outcome.value
      && finance.Snapshot() == r.(price := price)
      && Calibrated(Evaluation, r, Price, irr, Targets(proIrr, capIrr), mode, fuel, outcome)
    ensures finance.Cleared(Rows(old(finance.Snapshot())))
  {
    EvaluationEvaluates();
    outcome := Calibrate(finance, Evaluation, Price, irr, Targets(proIrr, capIrr), mode, fuel);
    price := finance.price;
  }

  /**
   * cal_aep: the full-load hours the search stops at, which are also left in
   * the Finance object, with every other parameter as the cost write-back left
   * it and the three auxiliary series reset to zeros.
   */
  method CalAep(finance: Finance, irr: seq<real> -> real, fuel: nat,
                  proIrr: real := 0.06, capIrr: real := 0.08, mode: int := 0)
    returns (aep: real, outcome: Outcome)
    requires Admissible(finance.Snapshot())
    modifies finance
    ensures var r := Resolve(old(finance.Snapshot()));
      && aep == finance.aep == outcome.value
      && finance.Snapshot() == r.(aep := aep)
      && Calibrated(Evaluation, r, Aep, irr, Targets(proIrr, capIrr), mode, fuel, outcome)
    ensures finance.Cleared(Rows(old(finance.Snapshot())))
  {
    EvaluationEvaluates();
    outcome := Calibrate(finance, Evaluation, Aep, irr, Targets(proIrr, capIrr), mode, fuel);
    aep := finance.aep;
  }
}
