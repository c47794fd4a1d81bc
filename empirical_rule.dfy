/** Q1 (sampling vocabulary) and Q2 (normal upper tail by the 68–95–99.7 rule):
    the draws of generateNumbers, the tail table shared by buildQ2Explanation
    and checkQ2Answer, and the Q2 checker. */
module EmpiricalRule {
  import opened Grading

  const Companies: seq<string> :=
    ["Acme Analytics", "Northstar Retail", "Nimbus Labs", "Orion Biotech", "Vector Logistics"]
  const Metrics: seq<string> :=
    ["training hours this year", "annual training hours", "hours of professional development this year"]

  /** state.q1Context: the wording of the sampling question. */
  datatype Q1Context = Q1Context(company: string, metric: string, n: int)

  /** Q1's sample size is drawn from 80..200. */
  predicate ValidSampleSize(n: int)
  {
    80 <= n <= 200
  }

  /** The context Q1 is worded from, for the drawn company, metric and size. */
  function Q1Of(companyIx: nat, metricIx: nat, n: int): (c: Q1Context)
    requires companyIx < |Companies| && metricIx < |Metrics|
    ensures c.company in Companies && c.metric in Metrics && c.n == n
  {
    Q1Context(Companies[companyIx], Metrics[metricIx], n)
  }

  // ---------------------------------------------------------------- Q2

  /** The Q2 draws: mu in 7.0..9.8 and sigma in 0.8..1.8, both rounded to one
      decimal (so given here in tenths), and k in {1, 2, 3}. */
  predicate ValidQ2Draw(muTenths: int, sigmaTenths: int, k: int)
  {
    70 <= muTenths <= 98 && 8 <= sigmaTenths <= 18 && 1 <= k <= 3
  }

  datatype Q2Instance = Q2Instance(mu: real, sigma: real, k: int, threshold: real)

  function ZScore(x: real, mu: real, sigma: real): real
    requires sigma != 0.0
  {
    (x - mu) / sigma
  }

  /** The numbers generateNumbers stores for Q2: the threshold is
      +(mu + k*sigma).toFixed(2).  Rounding never moves it, so the z-score
      of the threshold is exactly k, which is what the explanation prints. */
  function DeriveQ2(muTenths: int, sigmaTenths: int, k: int): (q: Q2Instance)
    requires ValidQ2Draw(muTenths, sigmaTenths, k)
    ensures q.k == k && 0.8 <= q.sigma <= 1.8 && 7.0 <= q.mu <= 9.8
    ensures q.threshold == q.mu + k as real * q.sigma
    ensures ZScore(q.threshold, q.mu, q.sigma) == k as real
  {
    var mu := muTenths as real / 10.0;
    var sigma := sigmaTenths as real / 10.0;
    ThresholdIsExact(mu, sigma, muTenths, sigmaTenths, k);
    ZScoreOfShift(mu, sigma, k as real);
    Q2Instance(mu, sigma, k, Round2(mu + k as real * sigma))
  }

  /** A point k standard deviations above the mean has z-score k. */
  lemma ZScoreOfShift(mu: real, sigma: real, k: real)
    requires sigma > 0.0
    ensures ZScore(mu + k * sigma, mu, sigma) == k
  {
    assert mu + k * sigma - mu == k * sigma;
  }

  /** With mu and sigma on one decimal, mu + k * sigma has at most two
      decimals, so rounding it to hundredths leaves it alone. */
  lemma ThresholdIsExact(mu: real, sigma: real, muTenths: int, sigmaTenths: int, k: int)
    requires mu == muTenths as real / 10.0 && sigma == sigmaTenths as real / 10.0
    requires 1 <= k <= 3
    ensures Round2(mu + k as real * sigma) == mu + k as real * sigma
  {
    var x := mu + k as real * sigma;
    var m := 10 * (muTenths + k * sigmaTenths);
    if k == 1 {
      assert x == m as real / 100.0;
    } else if k == 2 {
      assert x == m as real / 100.0;
    } else {
      assert x == m as real / 100.0;
    }
    CentsOnHundredths(m);
    Round2OfHundredths(x);
  }

  /** Percent of a normal population within k standard deviations, as the
      empirical rule states it. */
  function WithinPercent(k: int): real
  {
    if k == 1 then 68.0 else if k == 2 then 95.0 else 99.7
  }

  /** The upper-tail percent shown by buildQ2Explanation (default 16.0, then
      one assignment per k). */
  function ExplainedTailPercent(k: int): (r: real)
    ensures 0.0 < r <= 16.0
    ensures k != 2 && k != 3 ==> r == 16.0
  {
    var pct := 16.0;
    var pct := if k == 1 then 16.0 else pct;
    var pct := if k == 2 then 2.5 else pct;
    if k == 3 then 0.15 else pct
  }

  /** The expected upper-tail percent used by checkQ2Answer (default 16.0,
      overridden for k = 2 and k = 3). */
  function ExpectedTailPercent(k: int): (r: real)
    ensures 0.0 < r <= 16.0
    ensures k != 2 && k != 3 ==> r == 16.0
  {
    var expected := 16.0;
    var expected := if k == 2 then 2.5 else expected;
    if k == 3 then 0.15 else expected
  }

  /** The absolute tolerance of checkQ2Answer, in percentage points. */
  function Tolerance(k: int): (r: real)
    ensures 0.0 < r <= 2.0
    ensures k != 1 && k != 2 ==> r == 0.1
  {
    if k == 1 then 2.0 else if k == 2 then 0.8 else 0.1
  }

  /** The explanation and the checker show the same tail for every k, and for
      k in {1, 2, 3} it is half of what lies outside +-k sigma. */
  lemma TailTablesAgree(k: int)
    ensures ExplainedTailPercent(k) == ExpectedTailPercent(k)
    ensures 1 <= k <= 3 ==> ExpectedTailPercent(k) == (100.0 - WithinPercent(k)) / 2.0
    ensures 0.0 < Tolerance(k) < ExpectedTailPercent(k)
  {
  }

  /** The table itself: 16.0 / 2.5 / 0.15 percent with tolerance 2.0 / 0.8 / 0.1. */
  lemma TailTableValues()
    ensures ExpectedTailPercent(1) == 16.0 && Tolerance(1) == 2.0
    ensures ExpectedTailPercent(2) == 2.5 && Tolerance(2) == 0.8
    ensures ExpectedTailPercent(3) == 0.15 && Tolerance(3) == 0.1
  {
  }

  /** What the Q2 feedback reveals on a wrong answer: z = k and the tail percent. */
  datatype Q2Hint = Q2Hint(z: int, expected: real)

  /** checkQ2Answer against the stored k. */
  function CheckQ2(input: Option<real>, k: int): (g: Grade<Q2Hint>)
    ensures input.None? <==> g.InvalidInput?
    ensures g.Incorrect? ==> g.hint == Q2Hint(k, ExpectedTailPercent(k))
  {
    match input
    case None => InvalidInput
    case Some(v) =>
      var val := AsPercent(v);
      var expected := ExpectedTailPercent(k);
      if Abs(val - expected) <= Tolerance(k) then Correct
      else Incorrect(Q2Hint(k, expected))
  }

  /** The entries that pass, written out per k: a percent or a proportion
      window for k = 1 and k = 2, and only a proportion window for k = 3. */
  predicate InQ2Window(k: int, v: real)
  {
    if k == 1 then (14.0 <= v <= 18.0) || (0.14 <= v <= 0.18)
    else if k == 2 then (1.7 <= v <= 3.3) || (0.017 <= v <= 0.033)
    else 0.0005 <= v <= 0.0025
  }

  lemma Q2AcceptanceWindows(k: int, v: real)
    requires 1 <= k <= 3
    ensures CheckQ2(Some(v), k) == Correct <==> InQ2Window(k, v)
  {
    if v <= 1.0 {
      assert AsPercent(v) == 100.0 * v;
    } else {
      assert AsPercent(v) == v;
    }
  }

  /** The worked example: mu = 8.4, sigma = 1.2, k = 1 gives threshold 9.6 and
      16%; "16" and "0.16" pass, "20" fails with a hint naming 16. */
  lemma Q2Example()
    ensures DeriveQ2(84, 12, 1).threshold == 9.6
    ensures CheckQ2(Some(16.0), 1) == Correct
    ensures CheckQ2(Some(0.16), 1) == Correct
    ensures CheckQ2(Some(20.0), 1) == Incorrect(Q2Hint(1, 16.0))
  {
    Q2AcceptanceWindows(1, 16.0);
    Q2AcceptanceWindows(1, 0.16);
  }

  /** As written: at k = 3 the hint says the tail is about 0.15%, yet every
      percent-form entry within the tolerance of 0.15 (0.05..0.25) is at most 1,
      is rescaled as a proportion and fails. */
  lemma Q2PercentFormRejectedAtThreeSigma(v: real)
    requires Within(v, 0.15, 0.1)
    ensures CheckQ2(Some(v), 3) == Incorrect(Q2Hint(3, 0.15))
  {
    assert AsPercent(v) == 100.0 * v;
  }

  /** An answer whose unit is stated, instead of guessed from its size. */
  datatype Answer = Proportion(p: real) | Percent(x: real)

  function PercentOf(a: Answer): real
  {
    match a
    case Proportion(p) => 100.0 * p
    case Percent(x) => x
  }

  /** The Q2 checker with the unit made explicit. */
  function CheckQ2Tagged(input: Option<Answer>, k: int): (g: Grade<Q2Hint>)
    ensures input.None? <==> g.InvalidInput?
  {
    match input
    case None => InvalidInput
    case Some(a) =>
      var expected := ExpectedTailPercent(k);
      if Abs(PercentOf(a) - expected) <= Tolerance(k) then Correct
      else Incorrect(Q2Hint(k, expected))
  }

  /** Corrected: the two ways of writing the same quantity always get the same
      verdict, a percent within tolerance of the tail always passes (0.15 at
      k = 3 included), and the checker agrees with the size-based rescaling
      wherever that rescaling reads the unit right. */
  lemma Q2TaggedUnitsAgree(x: real, k: int)
    ensures CheckQ2Tagged(Some(Proportion(x / 100.0)), k) == CheckQ2Tagged(Some(Percent(x)), k)
    ensures CheckQ2Tagged(Some(Percent(x)), k) == Correct
            <==> Within(x, ExpectedTailPercent(k), Tolerance(k))
    ensures x > 1.0 ==> CheckQ2Tagged(Some(Percent(x)), k) == CheckQ2(Some(x), k)
    ensures x <= 100.0 ==> CheckQ2Tagged(Some(Proportion(x / 100.0)), k) == CheckQ2(Some(x / 100.0), k)
  {
    assert PercentOf(Proportion(x / 100.0)) == x;
    if x <= 100.0 {
      assert AsPercent(x / 100.0) == x;
    }
  }
}
