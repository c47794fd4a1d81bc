/** Inference exercises: the 95% confidence interval (generateQ4 / checkQ4), the
    two-sided test of a mean (generateQ5 / checkQ5), and the fixed-number
    midterm items Q6 (one-sided z-test), Q7 (interval) and Q8 (Type II error).
    A standard error s/sqrt(n) is taken as a positive number se with
    se * se * n == s * s. */
module Inference {
  import opened Grading

  /** The "simple fallback" critical value: 1.96 from 30 on, 2.045 below.
      generateQ4 applies it to n, generateQ5 to df = n - 1. */
  function TwoPointCritical(m: int): (r: real)
    ensures 1.96 <= r <= 2.045
    ensures r == 1.96 <==> m >= 30
  {
    if m >= 30 then 1.96 else 2.045
  }

  /** se stands for s / sqrt(n). */
  predicate IsStandardError(se: real, s: real, n: int)
  {
    se > 0.0 && se * se * (n as real) == s * s
  }

  /** The draws shared by generateQ4 and generateQ5: n in 35..120, and xbar in
      48..62 and s in 6..14 rounded to hundredths. */
  predicate ValidSampleDraw(n: int, xbar: real, s: real)
  {
    35 <= n <= 120
    && 48.0 <= xbar <= 62.0 && OnHundredths(xbar)
    && 6.0 <= s <= 14.0 && OnHundredths(s)
  }

  /** With s >= 6 and n <= 120 the standard error exceeds 0.5. */
  lemma StandardErrorAboveHalf(se: real, s: real, n: int)
    requires IsStandardError(se, s, n) && 6.0 <= s && 1 <= n <= 120
    ensures se > 0.5
  {
  }

  // ---------------------------------------------------------------- Q4

  /** state.q4 */
  datatype Q4Instance = Q4Instance(n: int, xbar: real, s: real, lower: real, upper: real, tstar: real, se: real)

  predicate Q4WellFormed(i: Q4Instance)
  {
    ValidSampleDraw(i.n, i.xbar, i.s) && IsStandardError(i.se, i.s, i.n)
    && i.tstar == TwoPointCritical(i.n)
    && i.lower == Round2(i.xbar - i.tstar * i.se)
    && i.upper == Round2(i.xbar + i.tstar * i.se)
  }

  /** The numbers generateQ4 stores. */
  function DeriveQ4(n: int, xbar: real, s: real, se: real): (r: Q4Instance)
    requires ValidSampleDraw(n, xbar, s) && IsStandardError(se, s, n)
    ensures Q4WellFormed(r) && r.n == n && r.xbar == xbar && r.s == s && r.se == se
  {
    var tstar := TwoPointCritical(n);
    Q4Instance(n, xbar, s, Round2(xbar - tstar * se), Round2(xbar + tstar * se), tstar, se)
  }

  /** Every stored interval uses 1.96, brackets the sample mean strictly, and
      after rounding its bounds are within 0.005 of xbar -+ 1.96 se, so its
      width is 2 * 1.96 * se to within 0.01. */
  lemma Q4IntervalProperties(i: Q4Instance)
    requires Q4WellFormed(i)
    ensures i.tstar == 1.96
    ensures i.lower < i.xbar < i.upper
    ensures Within(i.lower, i.xbar - i.tstar * i.se, 0.005)
    ensures Within(i.upper, i.xbar + i.tstar * i.se, 0.005)
    ensures Within(i.upper - i.lower, 2.0 * i.tstar * i.se, 0.01)
  {
    assert i.tstar == 1.96;
    StandardErrorAboveHalf(i.se, i.s, i.n);
    RoundedBracket(i.xbar, i.tstar * i.se);
  }

  /** Rounding x -+ d to hundredths still brackets x when d exceeds 0.01. */
  lemma RoundedBracket(x: real, d: real)
    requires d > 0.01
    ensures Round2(x - d) < x < Round2(x + d)
    ensures Within(Round2(x - d), x - d, 0.005) && Within(Round2(x + d), x + d, 0.005)
    ensures Within(Round2(x + d) - Round2(x - d), 2.0 * d, 0.01)
  {
  }

  datatype IntervalHint = IntervalHint(lower: real, upper: real)

  /** checkQ4: both bounds within 0.15. */
  function CheckQ4(lo: Option<real>, hi: Option<real>, i: Q4Instance): (g: Grade<IntervalHint>)
    ensures g.InvalidInput? <==> (lo.None? || hi.None?)
    ensures g.Incorrect? ==> g.hint == IntervalHint(i.lower, i.upper)
  {
    if lo.None? || hi.None? then InvalidInput
    else if Abs(lo.value - i.lower) <= 0.15 && Abs(hi.value - i.upper) <= 0.15 then Correct
    else Incorrect(IntervalHint(i.lower, i.upper))
  }

  /** Both bounds must pass; the stored bounds pass, and so does the unrounded
      interval xbar -+ 1.96 se. */
  lemma Q4GradeBothBounds(lo: real, hi: real, i: Q4Instance)
    requires Q4WellFormed(i)
    ensures CheckQ4(Some(lo), Some(hi), i) == Correct
            <==> Within(lo, i.lower, 0.15) && Within(hi, i.upper, 0.15)
    ensures CheckQ4(Some(i.lower), Some(i.upper), i) == Correct
    ensures CheckQ4(Some(i.xbar - 1.96 * i.se), Some(i.xbar + 1.96 * i.se), i) == Correct
  {
    Q4IntervalProperties(i);
    var d := i.tstar * i.se;
    assert d == 1.96 * i.se;
    assert Within(i.xbar - d, i.lower, 0.15) && Within(i.xbar + d, i.upper, 0.15);
  }

  // ---------------------------------------------------------------- Q5

  /** state.q5 */
  datatype Q5Instance = Q5Instance(n: int, mu0: real, xbar: real, s: real, se: real, t: real, df: int, tcrit: real)

  /** generateQ5's draws: the sample draw of Q4 and mu0 in 49..51 to hundredths. */
  predicate ValidQ5Draw(n: int, mu0: real, xbar: real, s: real)
  {
    ValidSampleDraw(n, xbar, s) && 49.0 <= mu0 <= 51.0 && OnHundredths(mu0)
  }

  predicate Q5WellFormed(i: Q5Instance)
  {
    ValidQ5Draw(i.n, i.mu0, i.xbar, i.s) && IsStandardError(i.se, i.s, i.n)
    && i.t == (i.xbar - i.mu0) / i.se
    && i.df == i.n - 1
    && i.tcrit == TwoPointCritical(i.df)
  }

  /** The numbers generateQ5 stores. */
  function DeriveQ5(n: int, mu0: real, xbar: real, s: real, se: real): (r: Q5Instance)
    requires ValidQ5Draw(n, mu0, xbar, s) && IsStandardError(se, s, n)
    ensures Q5WellFormed(r) && r.n == n && r.mu0 == mu0 && r.xbar == xbar && r.s == s && r.se == se
  {
    var df := n - 1;
    Q5Instance(n, mu0, xbar, s, se, (xbar - mu0) / se, df, TwoPointCritical(df))
  }

  /** The decision checkQ5 expects. */
  function Q5Decision(i: Q5Instance): (r: string)
    ensures r == "reject" || r == "fail"
    ensures r == "reject" <==> Abs(i.t) > i.tcrit
  {
    if Abs(i.t) > i.tcrit then "reject" else "fail"
  }

  lemma ScaleByPositive(t: real, se: real, d: real, c: real)
    requires se > 0.0 && t * se == d
    ensures Abs(t) > c <==> Abs(d) > c * se
  {
    assert Abs(t) * se == Abs(d);
    if Abs(t) > c {
      assert Abs(t) * se > c * se;
    } else {
      assert Abs(t) * se <= c * se;
    }
  }

  /** df >= 34, so the critical value is always 1.96; the test rejects exactly
      when the sample mean lies more than 1.96 standard errors from mu0. */
  lemma Q5DecisionRule(i: Q5Instance)
    requires Q5WellFormed(i)
    ensures i.df >= 34 && i.tcrit == 1.96
    ensures Q5Decision(i) == "reject" <==> Abs(i.xbar - i.mu0) > 1.96 * i.se
  {
    QuotientTimesDivisor(i.xbar - i.mu0, i.se);
    ScaleByPositive(i.t, i.se, i.xbar - i.mu0, 1.96);
  }

  lemma QuotientTimesDivisor(a: real, b: real)
    requires b != 0.0
    ensures (a / b) * b == a
  {
  }

  datatype Q5Hint = Q5Hint(t: real, decision: string)

  /** checkQ5: t within 0.15 and the decision ("reject" / "fail") matching. */
  function CheckQ5(tIn: Option<real>, decide: string, i: Q5Instance): (g: Grade<Q5Hint>)
    ensures g.InvalidInput? <==> (tIn.None? || decide == "")
    ensures g.Incorrect? ==> g.hint == Q5Hint(i.t, Q5Decision(i))
  {
    if tIn.None? || decide == "" then InvalidInput
    else
      var tOk := Abs(tIn.value - i.t) <= 0.15;
      var decision := if Abs(i.t) > i.tcrit then "reject" else "fail";
      if tOk && decide == decision then Correct else Incorrect(Q5Hint(i.t, decision))
  }

  /** Both fields must pass: the wrong decision fails whatever t is entered. */
  lemma Q5GradeBothFields(tIn: real, decide: string, i: Q5Instance)
    requires Q5WellFormed(i)
    ensures CheckQ5(Some(tIn), decide, i) == Correct
            <==> Within(tIn, i.t, 0.15)
                 && decide == (if Abs(i.xbar - i.mu0) > 1.96 * i.se then "reject" else "fail")
  {
    Q5DecisionRule(i);
  }

  // ---------------------------------------------------------------- Q6 (midterm)

  /** state.q6m */
  datatype Q6Instance = Q6Instance(mu0: real, sigma: real, n: int, xbar: real, se: real, z: real)

  /** The one-sided (lower tail) rule at alpha = 0.05: reject when z < -1.645. */
  function LowerTailDecision(z: real): string
  {
    if z < -1.645 then "reject" else "fail"
  }

  /** generateQ6_midterm: mu0 = 45, sigma = 6, n = 36, xbar = 43.5; sqrt(36) = 6
      exactly, so se = 1 and z = -1.5, which the one-sided rule does not reject. */
  function DeriveQ6(): (r: Q6Instance)
    ensures r.se == 1.0 && r.z == -1.5
    ensures LowerTailDecision(r.z) == "fail"
  {
    var mu0, sigma, n, xbar := 45.0, 6.0, 36, 43.5;
    var se := sigma / 6.0;
    Q6Instance(mu0, sigma, n, xbar, se, (xbar - mu0) / se)
  }

  /** checkQ6_midterm: z within 0.1 and the decision "fail" (fixed in the source). */
  function CheckQ6(zIn: Option<real>, dec: string, i: Q6Instance): (g: Grade<real>)
    ensures g.InvalidInput? <==> (zIn.None? || dec == "")
    ensures g.Incorrect? ==> g.hint == i.z
  {
    if zIn.None? || dec == "" then InvalidInput
    else if Abs(zIn.value - i.z) <= 0.1 && dec == "fail" then Correct
    else Incorrect(i.z)
  }

  /** The fixed expected decision is the one-sided rule's decision for the
      generated z: an answer passes exactly when z is within 0.1 of -1.5 and
      the decision is the rule's; "reject" fails whatever z is entered. */
  lemma Q6FixedDecisionIsRuleDecision(zIn: real, dec: string)
    ensures CheckQ6(Some(zIn), dec, DeriveQ6()) == Correct
            <==> Within(zIn, -1.5, 0.1) && dec == LowerTailDecision(DeriveQ6().z)
    ensures CheckQ6(Some(zIn), "reject", DeriveQ6()) == Incorrect(-1.5)
  {
  }

  // ---------------------------------------------------------------- Q7 (midterm)

  /** state.q7m */
  datatype Q7Instance = Q7Instance(n: int, xbar: real, s: real, se: real, tstar: real, lo: real, hi: real)

  /** generateQ7_midterm: n = 50, xbar = 42, s = 8, t* = 2.009 (df 49); the
      bounds are not rounded, so the interval is exactly xbar -+ t*·se. */
  function DeriveQ7(se: real): (r: Q7Instance)
    requires IsStandardError(se, 8.0, 50)
    ensures r.lo < r.xbar < r.hi && r.hi - r.lo == 2.0 * r.tstar * r.se
    ensures r.xbar == 42.0 && r.tstar == 2.009 && r.se == se
  {
    var n, xbar, s := 50, 42.0, 8.0;
    var tstar := 2.009;
    Q7Instance(n, xbar, s, se, tstar, xbar - tstar * se, xbar + tstar * se)
  }

  /** 8 / sqrt(50) lies between 1.131 and 1.132. */
  lemma Q7StandardErrorBounds(se: real)
    requires IsStandardError(se, 8.0, 50)
    ensures 1.131 < se < 1.132
  {
  }

  /** checkQ7_midterm: both bounds within 0.2. */
  function CheckQ7(lo: Option<real>, hi: Option<real>, i: Q7Instance): (g: Grade<IntervalHint>)
    ensures g.InvalidInput? <==> (lo.None? || hi.None?)
    ensures g.Incorrect? ==> g.hint == IntervalHint(i.lo, i.hi)
  {
    if lo.None? || hi.None? then InvalidInput
    else if Abs(lo.value - i.lo) <= 0.2 && Abs(hi.value - i.hi) <= 0.2 then Correct
    else Incorrect(IntervalHint(i.lo, i.hi))
  }

  /** Both bounds must pass: an answer passes exactly when each bound is
      within 0.2 of the stored one. */
  lemma Q7GradeBothBounds(lo: real, hi: real, i: Q7Instance)
    ensures CheckQ7(Some(lo), Some(hi), i) == Correct
            <==> Within(lo, i.lo, 0.2) && Within(hi, i.hi, 0.2)
  {
  }

  /** The interval is (39.72.., 44.27..): the two-decimal answer (39.73, 44.27)
      passes, and so does (39.6, 44.4), but (39.5, 44.27) does not. */
  lemma Q7Example(se: real)
    requires IsStandardError(se, 8.0, 50)
    ensures 39.72 < DeriveQ7(se).lo < 39.73 && 44.27 < DeriveQ7(se).hi < 44.28
    ensures CheckQ7(Some(39.73), Some(44.27), DeriveQ7(se)) == Correct
    ensures CheckQ7(Some(39.6), Some(44.4), DeriveQ7(se)) == Correct
    ensures CheckQ7(Some(39.5), Some(44.27), DeriveQ7(se)).Incorrect?
  {
    Q7StandardErrorBounds(se);
  }

  // ---------------------------------------------------------------- Q8 (midterm)

  /** state.q8m; beta stands for the value the source computes with its normal
      CDF approximation, which is not part of this model. */
  datatype Q8Instance = Q8Instance(mu0: real, sigma: real, n: int, se: real, lo: real, hi: real, muTrue: real, beta: real)

  /** generateQ8_midterm without the CDF: sqrt(25) = 5 so se = 2, and the
      acceptance region mu0 -+ 1.96 se is [96.08, 103.92], which contains the
      true mean 102 (beta is the chance of staying in it). */
  function DeriveQ8(beta: real): (r: Q8Instance)
    ensures r.se == 2.0 && r.lo == 96.08 && r.hi == 103.92
    ensures r.lo < r.muTrue < r.hi && r.beta == beta
  {
    var mu0, sigma, n := 100.0, 10.0, 25;
    var se := sigma / 5.0;
    var zCrit := 1.96;
    Q8Instance(mu0, sigma, n, se, mu0 - zCrit * se, mu0 + zCrit * se, 102.0, beta)
  }

  /** checkQ8_midterm's rescaling: above 1.0001 the entry is a percent. */
  function BetaAsProportion(b: real): (r: real)
    ensures 0.0 <= b ==> 0.0 <= r <= b
    ensures b <= 100.01 ==> r <= 1.0001
  {
    if b > 1.0001 then b / 100.0 else b
  }

  /** checkQ8_midterm: the rescaled entry within 0.03 of beta. */
  function CheckQ8(b: Option<real>, i: Q8Instance): (g: Grade<real>)
    ensures g.InvalidInput? <==> b.None?
    ensures g.Incorrect? ==> g.hint == i.beta
  {
    match b
    case None => InvalidInput
    case Some(v) =>
      if Abs(BetaAsProportion(v) - i.beta) <= 0.03 then Correct else Incorrect(i.beta)
  }

  /** A proportion above 0.010001 and its percent get the same verdict
      ("0.83" and "83"); an entry of at most 1.0001 is taken as it is. */
  lemma BetaUnitsAgree(p: real, i: Q8Instance)
    requires 0.010001 < p <= 1.0001
    ensures BetaAsProportion(100.0 * p) == p && BetaAsProportion(p) == p
    ensures CheckQ8(Some(100.0 * p), i) == CheckQ8(Some(p), i)
  {
  }
}
