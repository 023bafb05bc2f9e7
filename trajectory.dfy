/**
 * The month-by-month simulation of `calcular`: three balances (the blended
 * portfolio, the CDI benchmark and the savings account), each nominal and
 * inflation-adjusted, driven by one shared monthly cash flow, together with
 * the running total of money put in.
 */
module Trajectory {

  /**
   * The monthly cash-flow plan: the contribution paid in every month, the
   * income withdrawn, the month withdrawals start and whether they are enabled.
   */
  datatype Plan = Plan(contribution: real, withdrawal: real, startMonth: nat, enabled: bool)

  /** Month m (counted from 0) is one in which the income is withdrawn. */
  predicate Withdrawing(plan: Plan, m: nat)
  {
    plan.enabled && m >= plan.startMonth
  }

  /** The net cash flow of month m: the contribution, less the income once withdrawals have started. */
  function Flow(plan: Plan, m: nat): real
  {
    if Withdrawing(plan, m) then plan.contribution - plan.withdrawal else plan.contribution
  }

  /** The balance after n months, starting from v0 and multiplied by the factor g every month before the flow is added. */
  function Balance(v0: real, g: real, plan: Plan, n: nat): real
  {
    if n == 0 then v0 else Balance(v0, g, plan, n - 1) * g + Flow(plan, n - 1)
  }

  /** The money put in after n months: the initial amount plus every contribution of a month without withdrawal. */
  function Invested(v0: real, plan: Plan, n: nat): real
  {
    if n == 0 then v0
    else Invested(v0, plan, n - 1) + (if Withdrawing(plan, n - 1) then 0.0 else plan.contribution)
  }

  /** The number of months among the first n in which the contribution is counted as invested. */
  function ContributingMonths(plan: Plan, n: nat): (k: nat)
    ensures k <= n
  {
    if !plan.enabled then n
    else if n <= plan.startMonth then n
    else plan.startMonth
  }

  /** s is the monthly series of balances for months 0 to n. */
  predicate Tracks(s: seq<real>, v0: real, g: real, plan: Plan, n: nat)
  {
    |s| == n + 1 && forall k :: 0 <= k <= n ==> s[k] == Balance(v0, g, plan, k)
  }

  /** One balance followed nominally and after inflation. */
  datatype Pair = Pair(nominal: seq<real>, deflated: seq<real>)

  /** The three series pairs of a simulation and the money put in. */
  datatype Run = Run(portfolio: Pair, cdi: Pair, savings: Pair, invested: real)

  /** The monthly factor of a series: 1 + tx nominally, (1 + tx) / (1 + txInf) after inflation. */
  function Growth(tx: real, txInf: real, deflated: bool): real
    requires 1.0 + txInf != 0.0
  {
    if deflated then (1.0 + tx) / (1.0 + txInf) else 1.0 + tx
  }

  /** The pair s follows for the monthly rate tx. */
  predicate PairTracks(s: Pair, tx: real, txInf: real, v0: real, plan: Plan, n: nat)
    requires 1.0 + txInf != 0.0
  {
    Tracks(s.nominal, v0, Growth(tx, txInf, false), plan, n) &&
    Tracks(s.deflated, v0, Growth(tx, txInf, true), plan, n)
  }

  lemma TracksExtend(s: seq<real>, v0: real, g: real, plan: Plan, n: nat, x: real)
    requires Tracks(s, v0, g, plan, n) && x == s[n] * g + Flow(plan, n)
    ensures Tracks(s + [x], v0, g, plan, n + 1)
  {
    var s' := s + [x];
    forall k | 0 <= k <= n + 1
      ensures s'[k] == Balance(v0, g, plan, k)
    {
      if k <= n {
        assert s'[k] == s[k];
      }
    }
  }

  /** One month of one series: the last balance times the factor, plus the month's flow, appended. */
  method Extend(s: seq<real>, v0: real, g: real, plan: Plan, m: nat, flow: real) returns (s': seq<real>)
    requires Tracks(s, v0, g, plan, m) && flow == Flow(plan, m)
    ensures Tracks(s', v0, g, plan, m + 1) && s'[..m + 1] == s
  {
    var x := s[|s| - 1] * g + flow;
    TracksExtend(s, v0, g, plan, m, x);
    s' := s + [x];
    assert s'[..m + 1] == s;
  }

  /**
   * The simulation loop of `calcular` over months 0 to months - 1, for the
   * monthly rates of the portfolio, the CDI, the savings account and inflation.
   */
  method Simulate(txCart: real, txCdi: real, txPoup: real, txInf: real, v0: real, plan: Plan, months: nat)
      returns (r: Run)
    requires 1.0 + txInf != 0.0
    ensures PairTracks(r.portfolio, txCart, txInf, v0, plan, months)
    ensures PairTracks(r.cdi, txCdi, txInf, v0, plan, months)
    ensures PairTracks(r.savings, txPoup, txInf, v0, plan, months)
    ensures r.invested == Invested(v0, plan, months)
  {
    var cartNom, cartReal := [v0], [v0];
    var cdiNom, cdiReal := [v0], [v0];
    var poupNom, poupReal := [v0], [v0];
    var invested := v0;
    var gCart, gCartReal := 1.0 + txCart, (1.0 + txCart) / (1.0 + txInf);
    var gCdi, gCdiReal := 1.0 + txCdi, (1.0 + txCdi) / (1.0 + txInf);
    var gPoup, gPoupReal := 1.0 + txPoup, (1.0 + txPoup) / (1.0 + txInf);
    for m := 0 to months
      invariant Tracks(cartNom, v0, gCart, plan, m) && Tracks(cartReal, v0, gCartReal, plan, m)
      invariant Tracks(cdiNom, v0, gCdi, plan, m) && Tracks(cdiReal, v0, gCdiReal, plan, m)
      invariant Tracks(poupNom, v0, gPoup, plan, m) && Tracks(poupReal, v0, gPoupReal, plan, m)
      invariant invested == Invested(v0, plan, m)
    {
      var flow := plan.contribution;
      if plan.enabled && m >= plan.startMonth {
        flow := plan.contribution - plan.withdrawal;
      }
      assert flow == Flow(plan, m);
      cartNom := Extend(cartNom, v0, gCart, plan, m, flow);
      cartReal := Extend(cartReal, v0, gCartReal, plan, m, flow);
      cdiNom := Extend(cdiNom, v0, gCdi, plan, m, flow);
      cdiReal := Extend(cdiReal, v0, gCdiReal, plan, m, flow);
      poupNom := Extend(poupNom, v0, gPoup, plan, m, flow);
      poupReal := Extend(poupReal, v0, gPoupReal, plan, m, flow);
      if !(plan.enabled && m >= plan.startMonth) {
        invested := invested + plan.contribution;
      }
    }
    r := Run(Pair(cartNom, cartReal), Pair(cdiNom, cdiReal), Pair(poupNom, poupReal), invested);
  }

  /** Every series starts at v0 and follows the recurrence, with the same flow for every series. */
  lemma TracksStep(s: seq<real>, v0: real, g: real, plan: Plan, n: nat)
    requires Tracks(s, v0, g, plan, n)
    ensures s[0] == v0
    ensures forall k :: 0 <= k < n ==> s[k + 1] == s[k] * g + Flow(plan, k)
  {
    forall k | 0 <= k < n
      ensures s[k + 1] == s[k] * g + Flow(plan, k)
    {
      assert s[k + 1] == Balance(v0, g, plan, k + 1);
    }
  }

  /** A series is determined by its start, factor, plan and length. */
  lemma TracksUnique(s: seq<real>, t: seq<real>, v0: real, g: real, plan: Plan, n: nat)
    requires Tracks(s, v0, g, plan, n) && Tracks(t, v0, g, plan, n)
    ensures s == t
  {
  }

  /** With a zero horizon every series is the single initial value and only v0 is invested. */
  lemma ZeroHorizon(s: seq<real>, v0: real, g: real, plan: Plan)
    requires Tracks(s, v0, g, plan, 0)
    ensures s == [v0] && Invested(v0, plan, 0) == v0
  {
  }

  /**
   * The money put in is v0 plus one contribution per month, counting with
   * withdrawals enabled only the months before they start.
   */
  lemma {:induction false} InvestedClosedForm(v0: real, plan: Plan, n: nat)
    ensures Invested(v0, plan, n) == v0 + plan.contribution * (ContributingMonths(plan, n) as real)
  {
    if n > 0 {
      InvestedClosedForm(v0, plan, n - 1);
      var k := ContributingMonths(plan, n - 1) as real;
      if Withdrawing(plan, n - 1) {
        assert ContributingMonths(plan, n) == ContributingMonths(plan, n - 1);
      } else {
        assert ContributingMonths(plan, n) as real == k + 1.0;
        assert plan.contribution * (k + 1.0) == plan.contribution * k + plan.contribution;
      }
    }
  }

  /** The amount withdrawn plays no part in what counts as invested. */
  lemma {:induction false} InvestedIgnoresWithdrawal(v0: real, plan: Plan, w: real, n: nat)
    ensures Invested(v0, plan, n) == Invested(v0, plan.(withdrawal := w), n)
  {
    if n > 0 {
      InvestedIgnoresWithdrawal(v0, plan, w, n - 1);
    }
  }

  function Pow(g: real, n: nat): real
  {
    if n == 0 then 1.0 else Pow(g, n - 1) * g
  }

  /** Without any cash flow a balance is compound growth: v0 times the factor to the power n. */
  lemma {:induction false} NoFlowCompounds(v0: real, g: real, plan: Plan, n: nat)
    requires plan.contribution == 0.0 && (!plan.enabled || plan.withdrawal == 0.0)
    ensures Balance(v0, g, plan, n) == v0 * Pow(g, n)
  {
    if n > 0 {
      NoFlowCompounds(v0, g, plan, n - 1);
      assert Flow(plan, n - 1) == 0.0;
      assert v0 * Pow(g, n - 1) * g == v0 * (Pow(g, n - 1) * g);
    }
  }

  /** Every flow is non-negative: withdrawals, if enabled, never exceed the contribution. */
  predicate FlowsNonNegative(plan: Plan)
  {
    plan.contribution >= 0.0 && (plan.enabled ==> plan.withdrawal <= plan.contribution)
  }

  lemma MulMono(a: real, b: real, g: real, h: real)
    requires 0.0 <= a <= b && 0.0 <= g <= h
    ensures a * g <= b * h
  {
    assert a * g <= b * g;
    assert b * g <= b * h;
  }

  /** With a non-negative start and flows, a balance never goes negative and grows with the monthly factor. */
  lemma {:induction false} BalanceMonotoneInGrowth(v0: real, g: real, h: real, plan: Plan, n: nat)
    requires v0 >= 0.0 && 0.0 <= g <= h && FlowsNonNegative(plan)
    ensures 0.0 <= Balance(v0, g, plan, n) <= Balance(v0, h, plan, n)
  {
    if n > 0 {
      BalanceMonotoneInGrowth(v0, g, h, plan, n - 1);
      MulMono(Balance(v0, g, plan, n - 1), Balance(v0, h, plan, n - 1), g, h);
      assert Flow(plan, n - 1) >= 0.0;
    }
  }

  /** With a non-negative start and flows and a factor of at least one, a balance never falls from month to month. */
  lemma {:induction false} BalanceNonDecreasing(v0: real, g: real, plan: Plan, n: nat)
    requires v0 >= 0.0 && g >= 1.0 && FlowsNonNegative(plan)
    ensures Balance(v0, g, plan, n) <= Balance(v0, g, plan, n + 1)
  {
    BalanceMonotoneInGrowth(v0, 0.0, g, plan, n);
    var b := Balance(v0, g, plan, n);
    assert b <= b * g by {
      MulMono(b, b, 1.0, g);
    }
    assert Flow(plan, n) >= 0.0;
  }

  lemma DeflatedFactorBelow(tx: real, txInf: real)
    requires 1.0 + tx >= 0.0 && txInf >= 0.0
    ensures 0.0 <= Growth(tx, txInf, true) <= Growth(tx, txInf, false)
  {
    var a, d := 1.0 + tx, 1.0 + txInf;
    assert a / d * d == a;
    if a / d > a {
      assert a / d * d >= a / d;
    }
  }

  /**
   * With non-negative inflation, a non-negative start and flows, and a rate above
   * minus one, the inflation-adjusted series never exceeds the nominal one.
   */
  lemma DeflatedBelowNominal(s: Pair, tx: real, txInf: real, v0: real, plan: Plan, n: nat)
    requires txInf >= 0.0 && 1.0 + tx >= 0.0 && v0 >= 0.0 && FlowsNonNegative(plan)
    requires PairTracks(s, tx, txInf, v0, plan, n)
    ensures forall k :: 0 <= k <= n ==> s.deflated[k] <= s.nominal[k]
  {
    DeflatedFactorBelow(tx, txInf);
    forall k | 0 <= k <= n
      ensures s.deflated[k] <= s.nominal[k]
    {
      BalanceMonotoneInGrowth(v0, Growth(tx, txInf, true), Growth(tx, txInf, false), plan, k);
    }
  }

  /**
   * Whatever the flows, a smaller non-negative factor never gives a larger
   * balance as long as the balance under the larger factor has not gone negative.
   */
  lemma {:induction false} BalanceBelowWhileSolvent(v0: real, h: real, g: real, plan: Plan, n: nat)
    requires 0.0 <= h <= g
    requires forall k :: 0 <= k < n ==> Balance(v0, g, plan, k) >= 0.0
    ensures Balance(v0, h, plan, n) <= Balance(v0, g, plan, n)
  {
    if n > 0 {
      BalanceBelowWhileSolvent(v0, h, g, plan, n - 1);
      var a, b := Balance(v0, h, plan, n - 1), Balance(v0, g, plan, n - 1);
      assert b >= 0.0;
      assert a * h <= b * h;
      assert b * h <= b * g;
    }
  }

  /**
   * Whatever the flows, from the first month on a strictly smaller non-negative
   * factor gives a strictly smaller balance as long as the balance under the
   * larger factor has stayed positive.
   */
  lemma {:induction false} BalanceStrictlyBelowWhileSolvent(v0: real, h: real, g: real, plan: Plan, n: nat)
    requires 0.0 <= h < g && n >= 1
    requires forall k :: 0 <= k < n ==> Balance(v0, g, plan, k) > 0.0
    ensures Balance(v0, h, plan, n) < Balance(v0, g, plan, n)
  {
    var a, b := Balance(v0, h, plan, n - 1), Balance(v0, g, plan, n - 1);
    if n == 1 {
      assert a == b == v0;
    } else {
      BalanceStrictlyBelowWhileSolvent(v0, h, g, plan, n - 1);
    }
    assert b > 0.0;
    assert a * h <= b * h;
    assert b * h < b * g;
  }

  /** With a positive start, a positive factor and non-negative flows, a balance stays positive. */
  lemma {:induction false} BalancePositive(v0: real, g: real, plan: Plan, n: nat)
    requires v0 > 0.0 && g > 0.0 && FlowsNonNegative(plan)
    ensures Balance(v0, g, plan, n) > 0.0
  {
    if n > 0 {
      BalancePositive(v0, g, plan, n - 1);
      var b := Balance(v0, g, plan, n - 1);
      assert b * g > 0.0;
      assert Flow(plan, n - 1) >= 0.0;
    }
  }

  /** From the first month on, a strictly larger factor gives a strictly larger balance when the start is positive. */
  lemma BalanceStrictInGrowth(v0: real, g: real, h: real, plan: Plan, n: nat)
    requires v0 > 0.0 && 0.0 <= g < h && FlowsNonNegative(plan) && n >= 1
    ensures Balance(v0, g, plan, n) < Balance(v0, h, plan, n)
  {
    BalanceMonotoneInGrowth(v0, g, h, plan, n - 1);
    BalancePositive(v0, h, plan, n - 1);
    var a, b := Balance(v0, g, plan, n - 1), Balance(v0, h, plan, n - 1);
    assert a * g <= b * g;
    assert b * g < b * h;
  }

  lemma DeflatedFactorStrictlyBelow(tx: real, txInf: real)
    requires 1.0 + tx > 0.0 && txInf > 0.0
    ensures 0.0 <= Growth(tx, txInf, true) < Growth(tx, txInf, false)
  {
    var a, d := 1.0 + tx, 1.0 + txInf;
    assert a / d * d == a;
    if a / d >= a {
      assert a / d * d > a / d;
    }
  }

  /**
   * With strictly positive inflation, a positive start, non-negative flows and
   * a rate above minus one, the two series agree only at month 0.
   */
  lemma DeflatedStrictlyBelowNominal(s: Pair, tx: real, txInf: real, v0: real, plan: Plan, n: nat)
    requires txInf > 0.0 && 1.0 + tx > 0.0 && v0 > 0.0 && FlowsNonNegative(plan)
    requires PairTracks(s, tx, txInf, v0, plan, n)
    ensures s.deflated[0] == s.nominal[0]
    ensures forall k :: 1 <= k <= n ==> s.deflated[k] < s.nominal[k]
  {
    DeflatedFactorStrictlyBelow(tx, txInf);
    forall k | 1 <= k <= n
      ensures s.deflated[k] < s.nominal[k]
    {
      BalanceStrictInGrowth(v0, Growth(tx, txInf, true), Growth(tx, txInf, false), plan, k);
    }
  }

  /**
   * With non-negative inflation and a rate above minus one, the inflation-adjusted
   * series never exceeds the nominal one while the nominal balance has not gone
   * negative, whatever the withdrawals.
   */
  lemma DeflatedBelowNominalWhileSolvent(s: Pair, tx: real, txInf: real, v0: real, plan: Plan, n: nat)
    requires txInf >= 0.0 && 1.0 + tx >= 0.0
    requires PairTracks(s, tx, txInf, v0, plan, n)
    requires forall k :: 0 <= k < n ==> s.nominal[k] >= 0.0
    ensures forall k :: 0 <= k <= n ==> s.deflated[k] <= s.nominal[k]
  {
    DeflatedFactorBelow(tx, txInf);
    var h, g := Growth(tx, txInf, true), Growth(tx, txInf, false);
    forall k | 0 <= k <= n
      ensures s.deflated[k] <= s.nominal[k]
    {
      assert forall j :: 0 <= j < k ==> Balance(v0, g, plan, j) == s.nominal[j] >= 0.0;
      BalanceBelowWhileSolvent(v0, h, g, plan, k);
    }
  }

  /**
   * With strictly positive inflation and a rate above minus one, the
   * inflation-adjusted series is strictly below the nominal one from month 1 on
   * while the nominal balance has stayed positive, whatever the withdrawals.
   */
  lemma DeflatedStrictlyBelowNominalWhileSolvent(s: Pair, tx: real, txInf: real, v0: real, plan: Plan, n: nat)
    requires txInf > 0.0 && 1.0 + tx > 0.0
    requires PairTracks(s, tx, txInf, v0, plan, n)
    requires forall k :: 0 <= k < n ==> s.nominal[k] > 0.0
    ensures s.deflated[0] == s.nominal[0]
    ensures forall k :: 1 <= k <= n ==> s.deflated[k] < s.nominal[k]
  {
    DeflatedFactorStrictlyBelow(tx, txInf);
    var h, g := Growth(tx, txInf, true), Growth(tx, txInf, false);
    forall k | 1 <= k <= n
      ensures s.deflated[k] < s.nominal[k]
    {
      assert forall j :: 0 <= j < k ==> Balance(v0, g, plan, j) == s.nominal[j] > 0.0;
      BalanceStrictlyBelowWhileSolvent(v0, h, g, plan, k);
    }
  }
}
