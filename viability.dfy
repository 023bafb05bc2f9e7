/**
 * The retirement viability check of the dashboard: the capital a perpetual
 * monthly income needs, whether the final real balance reaches it, the
 * progress bar towards it and the severity of a shortfall.
 */
module Viability {

  /** How the outcome is presented: goal met, principal eroded, or short of the goal. */
  datatype Severity = Met | Critical | Caution

  datatype Assessment = Assessment(required: real, achieved: bool, progress: real, severity: Severity)

  function Clamp01(x: real): (r: real)
    ensures 0.0 <= r <= 1.0
    ensures 0.0 <= x <= 1.0 ==> r == x
    ensures x < 0.0 ==> r == 0.0
    ensures x > 1.0 ==> r == 1.0
  {
    if x < 0.0 then 0.0 else if x > 1.0 then 1.0 else x
  }

  /** The capital whose monthly real yield at the given rate pays the income; zero when either is not positive. */
  function Required(income: real, rate: real): (c: real)
    ensures c >= 0.0
    ensures c > 0.0 <==> rate > 0.0 && income > 0.0
    ensures rate > 0.0 && income > 0.0 ==> c * rate == income
  {
    if rate > 0.0 && income > 0.0 then income / rate else 0.0
  }

  /**
   * The verdict for a final real balance, the total invested, the desired
   * monthly income and the real monthly rate.
   */
  function Assess(finalReal: real, invested: real, income: real, rate: real): (a: Assessment)
    ensures a.required == Required(income, rate)
    ensures a.achieved <==> finalReal >= a.required && finalReal > 0.0
    ensures 0.0 <= a.progress <= 1.0
    ensures a.required == 0.0 ==> a.progress == 0.0
    ensures a.severity == Met <==> a.achieved
    ensures a.severity == Critical <==> !a.achieved && finalReal < invested
  {
    var required := Required(income, rate);
    var achieved := finalReal >= required && finalReal > 0.0;
    var progress := if required > 0.0 then Clamp01(finalReal / required) else 0.0;
    var severity := if achieved then Met else if finalReal < invested then Critical else Caution;
    Assessment(required, achieved, progress, severity)
  }

  lemma QuotientAtLeastOne(x: real, c: real)
    requires c > 0.0
    ensures x / c >= 1.0 <==> x >= c
  {
    if x >= c {
      assert x / c >= c / c;
    } else {
      assert x / c < c / c;
    }
  }

  /** With a goal in place, the goal is met exactly when the progress bar is full. */
  lemma MetIffFullProgress(finalReal: real, invested: real, income: real, rate: real)
    requires Required(income, rate) > 0.0
    ensures Assess(finalReal, invested, income, rate).achieved <==> Assess(finalReal, invested, income, rate).progress == 1.0
  {
    QuotientAtLeastOne(finalReal, Required(income, rate));
  }

  /** With a positive income and rate, the goal is met exactly when the balance's monthly real yield covers the income. */
  lemma MetIffYieldCoversIncome(finalReal: real, invested: real, income: real, rate: real)
    requires rate > 0.0 && income > 0.0
    ensures Assess(finalReal, invested, income, rate).achieved <==> finalReal * rate >= income
  {
    var c := Required(income, rate);
    assert c * rate == income;
    if finalReal >= c {
      assert finalReal * rate >= c * rate;
    } else {
      assert finalReal * rate < c * rate;
    }
  }

  /** Without an income goal (or a positive rate) no capital is required, the bar stays empty and any positive balance counts as met. */
  lemma NoGoal(finalReal: real, invested: real, income: real, rate: real)
    requires income <= 0.0 || rate <= 0.0
    ensures Assess(finalReal, invested, income, rate).required == 0.0
    ensures Assess(finalReal, invested, income, rate).progress == 0.0
    ensures Assess(finalReal, invested, income, rate).achieved <==> finalReal > 0.0
  {
  }

  /** A larger final balance never lowers the progress, and keeps a met goal met. */
  lemma ProgressMonotone(x: real, y: real, invested: real, income: real, rate: real)
    requires x <= y
    ensures Assess(x, invested, income, rate).progress <= Assess(y, invested, income, rate).progress
    ensures Assess(x, invested, income, rate).achieved ==> Assess(y, invested, income, rate).achieved
  {
    var c := Required(income, rate);
    if c > 0.0 {
      DivMono(x, y, c);
    }
  }

  lemma DivMono(x: real, y: real, c: real)
    requires c > 0.0 && x <= y
    ensures x / c <= y / c
  {
    assert y / c == x / c + (y - x) / c;
    assert (y - x) / c >= 0.0;
  }

  /** A shortfall: an income of 1000 at a real rate of 0.3% needs 1000 / 0.003, of which 100000 covers 30%. */
  lemma ShortfallScenario(invested: real)
    ensures Assess(100000.0, invested, 1000.0, 0.003).required == 1000.0 / 0.003
    ensures !Assess(100000.0, invested, 1000.0, 0.003).achieved
    ensures Assess(100000.0, invested, 1000.0, 0.003).progress == 0.3
    ensures Assess(100000.0, invested, 1000.0, 0.003).severity == (if 100000.0 < invested then Critical else Caution)
  {
    assert 100000.0 / (1000.0 / 0.003) == 0.3;
  }
}
