/** The worksheet's session state: app.js keeps one global `state` object with
    a slot per exercise, and every generator overwrites its own slot.  Here
    that object is a Session; each generator is a method whose frame is its
    own slot, with the random draws passed in as arguments. */
module Worksheet {
  import opened Grading
  import opened EmpiricalRule
  import opened Probability
  import opened Inference
  import opened Decision

  /** Q1/Q2 fields are consistent: k in {1, 2, 3} and the threshold is
      exactly k standard deviations above the mean. */
  ghost predicate Q2Consistent(mu: real, sigma: real, k: int, threshold: real)
  {
    1 <= k <= 3 && sigma > 0.0 && threshold == mu + k as real * sigma
  }

  class Session {
    var n: int
    var q1Context: Option<Q1Context>
    var mu: real
    var sigma: real
    var k: int
    var threshold: real
    var q3: Option<Q3Instance>
    var q4: Option<Q4Instance>
    var q5: Option<Q5Instance>
    var bonus: Option<EVInstance>
    var q3m: Option<Q3mInstance>
    var q4m: Option<Q4mInstance>
    var q6m: Option<Q6Instance>
    var q7m: Option<Q7Instance>
    var q8m: Option<Q8Instance>

    /** Every stored answer is the derivation of the parameters stored beside it. */
    ghost predicate Valid()
      reads this
    {
      Q2Consistent(mu, sigma, k, threshold)
      && (q1Context.Some? ==> q1Context.value.n == n && ValidSampleSize(n))
      && (q3.Some? ==> Q3WellFormed(q3.value))
      && (q4.Some? ==> Q4WellFormed(q4.value))
      && (q5.Some? ==> Q5WellFormed(q5.value))
      && (bonus.Some? ==> exists d: EVDraw :: ValidEVDraw(d) && bonus.value == DeriveEV(d))
      && (q3m.Some? ==> q3m.value == DeriveQ3m())
      && (q4m.Some? ==> q4m.value == DeriveQ4m())
      && (q6m.Some? ==> q6m.value == DeriveQ6())
      && (q7m.Some? ==> exists se: real :: IsStandardError(se, 8.0, 50) && q7m.value == DeriveQ7(se))
      && (q8m.Some? ==> q8m.value == DeriveQ8(q8m.value.beta))
    }

    /** The initial `state`: n = 100, mu = 8.4, sigma = 1.2, k = 1,
        threshold = 9.6, an empty Q1 context and no exercise slots yet. */
    constructor ()
      ensures Valid()
      ensures n == 100 && mu == 8.4 && sigma == 1.2 && k == 1 && threshold == 9.6
      ensures q1Context.None? && q3.None? && q4.None? && q5.None? && bonus.None?
      ensures q3m.None? && q4m.None? && q6m.None? && q7m.None? && q8m.None?
    {
      n, mu, sigma, k, threshold := 100, 8.4, 1.2, 1, 9.6;
      q1Context := None;
      q3, q4, q5, bonus := None, None, None, None;
      q3m, q4m, q6m, q7m, q8m := None, None, None, None, None;
    }

    /** generateNumbers: Q1's context and sample size, then Q2's mean,
        standard deviation, k and threshold. */
    method GenerateNumbers(companyIx: nat, metricIx: nat, sampleSize: int,
                           muTenths: int, sigmaTenths: int, kDraw: int)
      requires Valid()
      requires companyIx < |Companies| && metricIx < |Metrics| && ValidSampleSize(sampleSize)
      requires ValidQ2Draw(muTenths, sigmaTenths, kDraw)
      modifies this`n, this`q1Context, this`mu, this`sigma, this`k, this`threshold
      ensures Valid()
      ensures n == sampleSize && q1Context == Some(Q1Of(companyIx, metricIx, sampleSize))
      ensures var q := DeriveQ2(muTenths, sigmaTenths, kDraw);
              mu == q.mu && sigma == q.sigma && k == kDraw && threshold == q.threshold
      ensures ZScore(threshold, mu, sigma) == k as real
    {
      n := sampleSize;
      q1Context := Some(Q1Of(companyIx, metricIx, sampleSize));
      var q := DeriveQ2(muTenths, sigmaTenths, kDraw);
      mu := q.mu;
      sigma := q.sigma;
      k := q.k;
      threshold := q.threshold;
    }

    /** generateQ3 */
    method GenerateQ3(pA: int, pB: int, pInt: int)
      requires Valid() && ValidQ3Draw(pA, pB, pInt)
      modifies this`q3
      ensures Valid() && q3 == Some(DeriveQ3(pA, pB, pInt))
    {
      q3 := Some(DeriveQ3(pA, pB, pInt));
    }

    /** generateQ4; se stands for s / sqrt(n). */
    method GenerateQ4(sampleSize: int, xbar: real, s: real, se: real)
      requires Valid() && ValidSampleDraw(sampleSize, xbar, s) && IsStandardError(se, s, sampleSize)
      modifies this`q4
      ensures Valid() && q4 == Some(DeriveQ4(sampleSize, xbar, s, se))
    {
      q4 := Some(DeriveQ4(sampleSize, xbar, s, se));
    }

    /** generateQ5; se stands for s / sqrt(n). */
    method GenerateQ5(sampleSize: int, mu0: real, xbar: real, s: real, se: real)
      requires Valid() && ValidQ5Draw(sampleSize, mu0, xbar, s) && IsStandardError(se, s, sampleSize)
      modifies this`q5
      ensures Valid() && q5 == Some(DeriveQ5(sampleSize, mu0, xbar, s, se))
    {
      q5 := Some(DeriveQ5(sampleSize, mu0, xbar, s, se));
    }

    /** generateEVBonus */
    method GenerateEVBonus(d: EVDraw)
      requires Valid() && ValidEVDraw(d)
      modifies this`bonus
      ensures Valid() && bonus == Some(DeriveEV(d))
    {
      bonus := Some(DeriveEV(d));
    }

    /** generateQ3_midterm */
    method GenerateQ3Midterm()
      requires Valid()
      modifies this`q3m
      ensures Valid() && q3m == Some(DeriveQ3m())
    {
      q3m := Some(DeriveQ3m());
    }

    /** generateQ4_midterm */
    method GenerateQ4Midterm()
      requires Valid()
      modifies this`q4m
      ensures Valid() && q4m == Some(DeriveQ4m())
    {
      q4m := Some(DeriveQ4m());
    }

    /** generateQ6_midterm */
    method GenerateQ6Midterm()
      requires Valid()
      modifies this`q6m
      ensures Valid() && q6m == Some(DeriveQ6())
    {
      q6m := Some(DeriveQ6());
    }

    /** generateQ7_midterm; se stands for 8 / sqrt(50). */
    method GenerateQ7Midterm(se: real)
      requires Valid() && IsStandardError(se, 8.0, 50)
      modifies this`q7m
      ensures Valid() && q7m == Some(DeriveQ7(se))
    {
      q7m := Some(DeriveQ7(se));
    }

    /** generateQ8_midterm; beta stands for the value of the CDF difference. */
    method GenerateQ8Midterm(beta: real)
      requires Valid()
      modifies this`q8m
      ensures Valid() && q8m == Some(DeriveQ8(beta))
    {
      q8m := Some(DeriveQ8(beta));
    }

    /** generateMidtermAll: the midterm items in order, then the bonus.  The
        basic Q1..Q5 slots are left alone. */
    method GenerateMidtermAll(se7: real, beta: real, d: EVDraw)
      requires Valid() && IsStandardError(se7, 8.0, 50) && ValidEVDraw(d)
      modifies this`q3m, this`q4m, this`q6m, this`q7m, this`q8m, this`bonus
      ensures Valid()
      ensures q3m == Some(DeriveQ3m()) && q4m == Some(DeriveQ4m()) && q6m == Some(DeriveQ6())
      ensures q7m == Some(DeriveQ7(se7)) && q8m == Some(DeriveQ8(beta))
      ensures bonus == Some(DeriveEV(d))
    {
      GenerateQ3Midterm();
      GenerateQ4Midterm();
      GenerateQ6Midterm();
      GenerateQ7Midterm(se7);
      GenerateQ8Midterm(beta);
      GenerateEVBonus(d);
    }

    /** The tail both hooks add: generateMidtermAll runs once per hook, so
        twice per regenerate, and only the second round's draws survive. */
    method MidtermTwice(firstSe7: real, firstBeta: real, firstBonus: EVDraw,
                        se7: real, beta: real, d: EVDraw)
      requires Valid()
      requires IsStandardError(firstSe7, 8.0, 50) && ValidEVDraw(firstBonus)
      requires IsStandardError(se7, 8.0, 50) && ValidEVDraw(d)
      modifies this`q3m, this`q4m, this`q6m, this`q7m, this`q8m, this`bonus
      ensures Valid()
      ensures q3m == Some(DeriveQ3m()) && q4m == Some(DeriveQ4m()) && q6m == Some(DeriveQ6())
      ensures q7m == Some(DeriveQ7(se7)) && q8m == Some(DeriveQ8(beta)) && bonus == Some(DeriveEV(d))
    {
      GenerateMidtermAll(firstSe7, firstBeta, firstBonus);
      GenerateMidtermAll(se7, beta, d);
    }

    /** One "regenerate": generateNumbers as the two hooks leave it, which
        runs the original generator and then generateMidtermAll twice.  Only
        the second round's draws survive; Q3, Q4 and Q5 are not regenerated. */
    method Regenerate(companyIx: nat, metricIx: nat, sampleSize: int,
                      muTenths: int, sigmaTenths: int, kDraw: int,
                      firstSe7: real, firstBeta: real, firstBonus: EVDraw,
                      se7: real, beta: real, d: EVDraw)
      requires Valid()
      requires companyIx < |Companies| && metricIx < |Metrics| && ValidSampleSize(sampleSize)
      requires ValidQ2Draw(muTenths, sigmaTenths, kDraw)
      requires IsStandardError(firstSe7, 8.0, 50) && ValidEVDraw(firstBonus)
      requires IsStandardError(se7, 8.0, 50) && ValidEVDraw(d)
      modifies this
      ensures Valid()
      ensures n == sampleSize && q1Context == Some(Q1Of(companyIx, metricIx, sampleSize))
      ensures var q := DeriveQ2(muTenths, sigmaTenths, kDraw);
              mu == q.mu && sigma == q.sigma && k == kDraw && threshold == q.threshold
      ensures ZScore(threshold, mu, sigma) == k as real
      ensures q3m == Some(DeriveQ3m()) && q4m == Some(DeriveQ4m()) && q6m == Some(DeriveQ6())
      ensures q7m == Some(DeriveQ7(se7)) && q8m == Some(DeriveQ8(beta)) && bonus == Some(DeriveEV(d))
      ensures q3 == old(q3) && q4 == old(q4) && q5 == old(q5)
    {
      GenerateNumbers(companyIx, metricIx, sampleSize, muTenths, sigmaTenths, kDraw);
      MidtermTwice(firstSe7, firstBeta, firstBonus, se7, beta, d);
    }
  }
}
