/**
 * `calcular` as a whole: the blend of the weight map drives the portfolio
 * series, the CDI and the savings account drive the benchmarks, and the final
 * real balance and real monthly rate give the sustainable passive income.
 */
module Engine {
  import opened Wrappers
  import opened Allocation
  import opened Trajectory
  import opened Viability

  /** Annual inflation assumed, in percent. */
  const InflationRate: real := 4.5

  /** Annual CDI rate, in percent. */
  const CdiRate: real := 10.75

  /** The real monthly rate used when the portfolio does not beat inflation. */
  const RateFloor: real := 0.0001

  /** What the user enters besides the weights: amounts, horizon and the withdrawal plan. */
  datatype Inputs = Inputs(initial: real, contribution: real, years: nat, income: real, startYear: nat, retire: bool)

  /** The cash-flow plan of the inputs; withdrawals start at month startYear * 12. */
  function PlanOf(inp: Inputs): (plan: Plan)
    ensures plan.startMonth == inp.startYear * 12
    ensures forall m: nat :: Withdrawing(plan, m) <==> inp.retire && m >= inp.startYear * 12
  {
    Plan(inp.contribution, inp.income, inp.startYear * 12, inp.retire)
  }

  /**
   * The real monthly rate of the portfolio against inflation, replaced by the
   * floor when it is not positive; it is never zero or negative.
   */
  function RealMonthlyRate(txCart: real, txInf: real): (r: real)
    requires 1.0 + txInf != 0.0
    ensures r > 0.0
    ensures Growth(txCart, txInf, true) - 1.0 > 0.0 ==> r == Growth(txCart, txInf, true) - 1.0
    ensures Growth(txCart, txInf, true) - 1.0 <= 0.0 ==> r == RateFloor
  {
    var q := (1.0 + txCart) / (1.0 + txInf) - 1.0;
    if q <= 0.0 then RateFloor else q
  }

  /** The result of `calcular` for a successful aggregation. */
  datatype Projection = Projection(
    run: Run, finalNominal: real, finalReal: real, invested: real,
    netReturn: real, risk: real, used: seq<Share>, idle: bool,
    realRate: real, passiveIncome: real)

  /**
   * p is the projection of the blend b for the inputs, when the conversion of an
   * annual percentage to a monthly rate is the function monthly.
   */
  predicate Projected(p: Projection, b: Blend, monthly: real -> real, inp: Inputs)
    requires 1.0 + monthly(InflationRate) != 0.0
  {
    var txCart, txInf := monthly(b.NetReturn()), monthly(InflationRate);
    var plan, n := PlanOf(inp), inp.years * 12;
    PairTracks(p.run.portfolio, txCart, txInf, inp.initial, plan, n) &&
    PairTracks(p.run.cdi, monthly(CdiRate), txInf, inp.initial, plan, n) &&
    PairTracks(p.run.savings, monthly(SavingsRate), txInf, inp.initial, plan, n) &&
    p.run.invested == Invested(inp.initial, plan, n) && p.invested == p.run.invested &&
    p.finalNominal == p.run.portfolio.nominal[n] && p.finalReal == p.run.portfolio.deflated[n] &&
    p.netReturn == b.NetReturn() && p.risk == b.risk && p.used == b.used && p.idle == b.idle &&
    p.realRate == RealMonthlyRate(txCart, txInf) && p.passiveIncome == p.finalReal * p.realRate
  }

  /**
   * `calcular`: aggregate the weights (failing on an unknown asset name), convert
   * the annual rates, simulate years * 12 months and derive the passive income.
   */
  method Calculate(ws: Weights, cat: Catalogue, monthly: real -> real, inp: Inputs)
      returns (r: Result<Projection, string>)
    requires 1.0 + monthly(InflationRate) != 0.0
    ensures Aggregation(ws, cat).Failure? ==> r == Failure(Aggregation(ws, cat).error)
    ensures Aggregation(ws, cat).Success? ==> r.Success? && Projected(r.value, Aggregation(ws, cat).value, monthly, inp)
  {
    var agg := Aggregate(ws, cat);
    if agg.Failure? {
      return Failure(agg.error);
    }
    var b := agg.value;
    var net := b.gross - b.cost;
    var n := inp.years * 12;
    var plan := Plan(inp.contribution, inp.income, inp.startYear * 12, inp.retire);
    var txCart := monthly(net);
    var txCdi := monthly(CdiRate);
    var txPoup := monthly(SavingsRate);
    var txInf := monthly(InflationRate);
    var run := Simulate(txCart, txCdi, txPoup, txInf, inp.initial, plan, n);
    var rate := (1.0 + txCart) / (1.0 + txInf) - 1.0;
    if rate <= 0.0 {
      rate := RateFloor;
    }
    var finalReal := run.portfolio.deflated[|run.portfolio.deflated| - 1];
    r := Success(Projection(run, run.portfolio.nominal[|run.portfolio.nominal| - 1], finalReal, run.invested,
                            net, b.risk, b.used, b.idle, rate, finalReal * rate));
  }

  /**
   * Every series has years * 12 + 1 entries and starts at the initial amount; with
   * no years the result is that amount; the return is the blend's gross less its cost.
   */
  lemma ProjectionShape(p: Projection, b: Blend, monthly: real -> real, inp: Inputs)
    requires 1.0 + monthly(InflationRate) != 0.0 && Projected(p, b, monthly, inp)
    ensures |p.run.portfolio.nominal| == |p.run.portfolio.deflated| == inp.years * 12 + 1
    ensures |p.run.cdi.nominal| == |p.run.cdi.deflated| == inp.years * 12 + 1
    ensures |p.run.savings.nominal| == |p.run.savings.deflated| == inp.years * 12 + 1
    ensures p.run.portfolio.nominal[0] == p.run.portfolio.deflated[0] == inp.initial
    ensures p.run.cdi.nominal[0] == p.run.cdi.deflated[0] == inp.initial
    ensures p.run.savings.nominal[0] == p.run.savings.deflated[0] == inp.initial
    ensures inp.years == 0 ==> p.finalNominal == p.finalReal == p.invested == inp.initial
    ensures p.netReturn == b.gross - b.cost && p.risk == b.risk
  {
  }

  /**
   * The money invested is the initial amount plus one contribution per month of
   * the horizon, or per month before withdrawals start when they are enabled.
   */
  lemma InvestedCapital(p: Projection, b: Blend, monthly: real -> real, inp: Inputs)
    requires 1.0 + monthly(InflationRate) != 0.0 && Projected(p, b, monthly, inp)
    ensures var n := inp.years * 12;
      p.invested == inp.initial + inp.contribution *
        ((if inp.retire && inp.startYear * 12 < n then inp.startYear * 12 else n) as real)
  {
    InvestedClosedForm(inp.initial, PlanOf(inp), inp.years * 12);
  }

  /** The passive income is positive exactly when the final real balance is, since the rate always is. */
  lemma PassiveIncomeSign(p: Projection, b: Blend, monthly: real -> real, inp: Inputs)
    requires 1.0 + monthly(InflationRate) != 0.0 && Projected(p, b, monthly, inp)
    ensures p.realRate > 0.0
    ensures p.passiveIncome > 0.0 <==> p.finalReal > 0.0
  {
    if p.finalReal > 0.0 {
      assert p.finalReal * p.realRate > 0.0;
    } else {
      assert p.finalReal * p.realRate <= 0.0;
    }
  }

  /** With idle cash the portfolio earns the savings rate, so its series are the savings series. */
  lemma IdleCashFollowsSavings(p: Projection, monthly: real -> real, inp: Inputs)
    requires 1.0 + monthly(InflationRate) != 0.0 && Projected(p, IdleBlend, monthly, inp)
    ensures p.run.portfolio == p.run.savings
    ensures p.finalNominal == p.run.savings.nominal[inp.years * 12]
  {
    var txInf, plan, n := monthly(InflationRate), PlanOf(inp), inp.years * 12;
    assert IdleBlend.NetReturn() == SavingsRate;
    var g, h := Growth(monthly(SavingsRate), txInf, false), Growth(monthly(SavingsRate), txInf, true);
    TracksUnique(p.run.portfolio.nominal, p.run.savings.nominal, inp.initial, g, plan, n);
    TracksUnique(p.run.portfolio.deflated, p.run.savings.deflated, inp.initial, h, plan, n);
  }

  /** With a goal configured, the projection always yields a capital requirement, because the real rate is positive. */
  lemma GoalAlwaysDefined(p: Projection, b: Blend, monthly: real -> real, inp: Inputs)
    requires 1.0 + monthly(InflationRate) != 0.0 && Projected(p, b, monthly, inp)
    ensures Assess(p.finalReal, p.invested, inp.income, p.realRate).required > 0.0 <==> inp.income > 0.0
  {
  }

  /**
   * A single asset of 10% gross return, no cost and risk 1, 10000 invested for
   * one year without contributions: the final nominal balance is 11000 when the
   * monthly rate compounds to the annual one over twelve months.
   */
  lemma SingleAssetYear(name: string, cat: Catalogue, monthly: real -> real, p: Projection)
    requires name in cat && cat[name] == Asset(10.0, 0.0, 1.0)
    requires 1.0 + monthly(InflationRate) != 0.0 && Pow(1.0 + monthly(10.0), 12) == 1.1
    requires Aggregation([Entry(name, 100.0)], cat).Success?
    requires Projected(p, Aggregation([Entry(name, 100.0)], cat).value, monthly, Inputs(10000.0, 0.0, 1, 0.0, 99, false))
    ensures p.netReturn == 10.0 && p.risk == 1.0 && !p.idle
    ensures p.finalNominal == 11000.0
  {
    var ws := [Entry(name, 100.0)];
    assert ws[..0] == [];
    assert Total(ws) == 100.0;
    assert FirstMissing(ws, cat) == None;
    assert Part(ws[0], 100.0) == 1.0;
    assert Weighted(ws, cat, 100.0, Gross) == 10.0;
    assert Weighted(ws, cat, 100.0, Cost) == 0.0;
    assert Weighted(ws, cat, 100.0, Risk) == 1.0;
    var plan := PlanOf(Inputs(10000.0, 0.0, 1, 0.0, 99, false));
    NoFlowCompounds(10000.0, 1.0 + monthly(10.0), plan, 12);
  }

  /**
   * An empty portfolio of 5000 for one year without contributions: the idle-cash
   * fallback, whose final nominal balance is 5000 grown by the savings rate.
   */
  lemma IdleCashYear(cat: Catalogue, monthly: real -> real, p: Projection)
    requires 1.0 + monthly(InflationRate) != 0.0 && Pow(1.0 + monthly(SavingsRate), 12) == 1.0617
    requires Projected(p, Aggregation([], cat).value, monthly, Inputs(5000.0, 0.0, 1, 0.0, 99, false))
    ensures Aggregation([], cat) == Success(IdleBlend) && p.idle
    ensures p.finalNominal == 5000.0 * 1.0617
  {
    assert IdleBlend.NetReturn() == SavingsRate;
    var plan := PlanOf(Inputs(5000.0, 0.0, 1, 0.0, 99, false));
    NoFlowCompounds(5000.0, 1.0 + monthly(SavingsRate), plan, 12);
  }
}
