/**
 * The summary cards of the dashboard: the percentage of a benchmark's profit
 * that the portfolio's profit represents, the comparison headers against the
 * CDI and the savings account, and the risk band of the blended risk score.
 */
module Dashboard {
  import opened Allocation
  import opened Engine

  /** The smallest denominator `calc_percent` divides by. */
  const MinDenominator: real := 0.01

  /** The larger of the denominator and the floor 0.01. */
  function SafeDenominator(d: real): (s: real)
    ensures s >= MinDenominator && s >= d
    ensures s == d || s == MinDenominator
  {
    if d > MinDenominator then d else MinDenominator
  }

  /**
   * `calc_percent`: the numerator as a percentage of the denominator, the
   * denominator raised to 0.01 when smaller; a positive numerator over a
   * non-positive denominator is divided by 0.01 explicitly.
   */
  function CalcPercent(n: real, d: real): (r: real)
    ensures r > 0.0 <==> n > 0.0
    ensures r == 0.0 <==> n == 0.0
    ensures d >= MinDenominator ==> r * d == n * 100.0
  {
    if n > 0.0 && d <= 0.0 then n / MinDenominator * 100.0 else n / SafeDenominator(d) * 100.0
  }

  /** The explicit branch for a positive numerator over a non-positive denominator gives what the general one would. */
  lemma CalcPercentIsSafeQuotient(n: real, d: real)
    ensures CalcPercent(n, d) == n / SafeDenominator(d) * 100.0
  {
    if n > 0.0 && d <= 0.0 {
      assert SafeDenominator(d) == MinDenominator;
    }
  }

  /** A numerator below the denominator is under 100 percent, one at or above it at least 100 percent. */
  lemma CalcPercentAgainstPar(n: real, d: real)
    requires n >= 0.0
    ensures n < d ==> CalcPercent(n, d) < 100.0
    ensures d >= MinDenominator && n >= d ==> CalcPercent(n, d) >= 100.0
  {
    CalcPercentIsSafeQuotient(n, d);
    var s := SafeDenominator(d);
    if n < d {
      assert n < s;
      assert n / s < s / s;
    }
    if d >= MinDenominator && n >= d {
      assert s == d;
      assert n / s >= s / s;
    }
  }

  /** The colour of a card or header. */
  datatype Tone = Danger | Warning | Success

  /** A comparison header: a loss, or the portfolio's profit as a percentage of the benchmark's. */
  datatype Header = Loss | Relative(tone: Tone, percent: real)

  /** The colour of a header; a loss is shown in the danger colour. */
  function HeaderTone(h: Header): Tone
  {
    match h
    case Loss => Danger
    case Relative(tone, _) => tone
  }

  /** The header against the CDI; its colour is also the colour of the nominal-balance card. */
  function CdiHeader(profit: real, cdiProfit: real): (h: Header)
    ensures h == Loss <==> profit < 0.0
    ensures HeaderTone(h) == Warning <==> 0.0 <= profit < cdiProfit
    ensures HeaderTone(h) == Success <==> 0.0 <= profit && cdiProfit <= profit
  {
    if profit < 0.0 then Loss
    else if profit < cdiProfit then Relative(Warning, CalcPercent(profit, cdiProfit))
    else Relative(Success, CalcPercent(profit, cdiProfit))
  }

  /** Trailing the CDI shows under 100 percent; beating it (against a profit of at least 0.01) shows at least 100 percent. */
  lemma CdiHeaderPercent(profit: real, cdiProfit: real)
    requires profit >= 0.0
    ensures CdiHeader(profit, cdiProfit).Relative?
    ensures 0.0 <= CdiHeader(profit, cdiProfit).percent
    ensures CdiHeader(profit, cdiProfit).tone == Warning ==> CdiHeader(profit, cdiProfit).percent < 100.0
    ensures CdiHeader(profit, cdiProfit).tone == Success && cdiProfit >= MinDenominator ==>
              CdiHeader(profit, cdiProfit).percent >= 100.0
  {
    CalcPercentAgainstPar(profit, cdiProfit);
  }

  /** The header against the savings account as written: the warning colour only on an exact tie. */
  function SavingsHeaderAsWritten(profit: real, savingsProfit: real): (h: Header)
    ensures h == Loss <==> profit < 0.0
    ensures HeaderTone(h) == Warning <==> 0.0 <= profit && profit == savingsProfit
  {
    if profit < 0.0 then Loss
    else if profit == savingsProfit then Relative(Warning, CalcPercent(profit, savingsProfit))
    else Relative(Success, CalcPercent(profit, savingsProfit))
  }

  /** As written, a profit of half the savings account's is shown in the success colour as 50 percent. */
  lemma TrailingSavingsShownAsSuccess()
    ensures SavingsHeaderAsWritten(1.0, 2.0) == Relative(Success, 50.0)
  {
    assert CalcPercent(1.0, 2.0) == 50.0;
  }

  /** The header against the savings account: the warning colour whenever the portfolio does not beat it. */
  function SavingsHeader(profit: real, savingsProfit: real): (h: Header)
    ensures h == Loss <==> profit < 0.0
    ensures HeaderTone(h) == Warning <==> 0.0 <= profit <= savingsProfit
    ensures HeaderTone(h) == Success <==> 0.0 <= profit && savingsProfit < profit
  {
    if profit < 0.0 then Loss
    else if profit <= savingsProfit then Relative(Warning, CalcPercent(profit, savingsProfit))
    else Relative(Success, CalcPercent(profit, savingsProfit))
  }

  /** The success colour against the savings account always shows at least 100 percent when that profit is at least 0.01. */
  lemma SavingsSuccessAbovePar(profit: real, savingsProfit: real)
    requires SavingsHeader(profit, savingsProfit).Relative? && SavingsHeader(profit, savingsProfit).tone == Success
    requires savingsProfit >= MinDenominator
    ensures SavingsHeader(profit, savingsProfit).percent >= 100.0
  {
    CalcPercentAgainstPar(profit, savingsProfit);
  }

  /** The corrected header differs from the one as written only when the portfolio trails the savings account. */
  lemma SavingsHeaderCorrection(profit: real, savingsProfit: real)
    ensures SavingsHeader(profit, savingsProfit) != SavingsHeaderAsWritten(profit, savingsProfit) <==>
              0.0 <= profit < savingsProfit
  {
  }

  /** The profit of a projection: the final nominal balance less the money invested. */
  function Profit(p: Projection): real
  {
    p.finalNominal - p.invested
  }

  /** The profit of a benchmark series against the money invested. */
  function BenchmarkProfit(s: seq<real>, p: Projection): real
    requires s != []
  {
    s[|s| - 1] - p.invested
  }

  /**
   * With idle cash the profit equals the savings profit, so neither savings header
   * shows success; the header as written shows the warning colour exactly on that
   * tie whenever there is no loss.
   */
  lemma IdleCashNeverBeatsSavings(p: Projection, monthly: real -> real, inp: Inputs)
    requires 1.0 + monthly(InflationRate) != 0.0 && Projected(p, IdleBlend, monthly, inp)
    ensures p.run.savings.nominal != []
    ensures Profit(p) == BenchmarkProfit(p.run.savings.nominal, p)
    ensures HeaderTone(SavingsHeader(Profit(p), BenchmarkProfit(p.run.savings.nominal, p))) != Success
    ensures HeaderTone(SavingsHeaderAsWritten(Profit(p), BenchmarkProfit(p.run.savings.nominal, p))) != Success
    ensures Profit(p) >= 0.0 ==>
              HeaderTone(SavingsHeaderAsWritten(Profit(p), BenchmarkProfit(p.run.savings.nominal, p))) == Warning
  {
    IdleCashFollowsSavings(p, monthly, inp);
  }

  /** The risk band of a blended risk score. */
  datatype Band = Low | Medium | High

  function RiskBand(risk: real): (b: Band)
    ensures b == Low <==> risk < 4.0
    ensures b == High <==> risk >= 7.0
  {
    if risk < 4.0 then Low else if risk < 7.0 then Medium else High
  }

  /** The colour of a risk band. */
  function BandTone(b: Band): Tone
  {
    match b
    case Low => Success
    case Medium => Warning
    case High => Danger
  }

  /** The colour of the risk card: success below 4, warning below 7, danger from 7 on. */
  lemma RiskTone(risk: real)
    ensures BandTone(RiskBand(risk)) == Success <==> risk < 4.0
    ensures BandTone(RiskBand(risk)) == Warning <==> 4.0 <= risk < 7.0
    ensures BandTone(RiskBand(risk)) == Danger <==> risk >= 7.0
  {
  }

  function Rank(b: Band): nat
  {
    match b
    case Low => 0
    case Medium => 1
    case High => 2
  }

  /** A higher risk score never lands in a lower band; idle cash is low risk. */
  lemma RiskBandMonotone(r: real, s: real)
    requires r <= s
    ensures Rank(RiskBand(r)) <= Rank(RiskBand(s))
    ensures RiskBand(IdleRisk) == Low
  {
  }
}
