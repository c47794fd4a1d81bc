/** Probability exercises: union and independence (generateQ3 / checkQ3), joint
    and conditional probability with fixed numbers (generateQ3_midterm /
    checkQ3_midterm), and the two-way promotion table (generateQ4_midterm /
    checkQ4_midterm).  All percentages of Q3 are whole numbers. */
module Probability {
  import opened Grading

  function Min(a: int, b: int): int { if a <= b then a else b }
  function Max(a: int, b: int): int { if a >= b then a else b }

  // ---------------------------------------------------------------- Q3

  /** generateQ3's draws, in percent: P(A) in 20..70, P(B) in 15..60, and
      P(A∩B) in 5..min(P(A), P(B)) - 3, a range that depends on the first two. */
  predicate ValidQ3Draw(pA: int, pB: int, pInt: int)
  {
    20 <= pA <= 70 && 15 <= pB <= 60 && 5 <= pInt <= Min(pA, pB) - 3
  }

  /** The intersection range is never empty: its upper end is at least 12. */
  lemma Q3RangeNeverEmpty(pA: int, pB: int)
    requires 20 <= pA <= 70 && 15 <= pB <= 60
    ensures Min(pA, pB) - 3 >= 12
    ensures ValidQ3Draw(pA, pB, 5) && ValidQ3Draw(pA, pB, Min(pA, pB) - 3)
  {
  }

  /** state.q3 */
  datatype Q3Instance = Q3Instance(pA: int, pB: int, pInt: int, union: int, indep: bool)

  /** The proportion gap |P(A)·P(B) - P(A∩B)| is a whole number of ten-thousandths. */
  lemma ProportionGap(pA: int, pB: int, pInt: int)
    ensures Abs((pA as real / 100.0) * (pB as real / 100.0) - pInt as real / 100.0)
            == IntAbs(pA * pB - 100 * pInt) as real / 10000.0
  {
    var m := pA * pB - 100 * pInt;
    assert (pA as real / 100.0) * (pB as real / 100.0) == (pA as real * pB as real) / 10000.0;
    assert pA as real * pB as real == (pA * pB) as real;
    var x := (pA as real / 100.0) * (pB as real / 100.0) - pInt as real / 100.0;
    assert x == m as real / 10000.0;
    if m < 0 {
      assert Abs(x) == (-m) as real / 10000.0;
    } else {
      assert Abs(x) == m as real / 10000.0;
    }
  }

  /** generateQ3's independence verdict, computed on proportions:
      |P(A)·P(B) - P(A∩B)| < 0.01.  On whole percentages it is the test
      |P(A)·P(B) - 100·P(A∩B)| < 100. */
  function ApproxIndependent(pA: int, pB: int, pInt: int): (r: bool)
    ensures r <==> IntAbs(pA * pB - 100 * pInt) < 100
  {
    ProportionGap(pA, pB, pInt);
    Abs((pA as real / 100.0) * (pB as real / 100.0) - pInt as real / 100.0) < 0.01
  }

  predicate Q3WellFormed(i: Q3Instance)
  {
    ValidQ3Draw(i.pA, i.pB, i.pInt)
    && i.union == i.pA + i.pB - i.pInt
    && i.indep == ApproxIndependent(i.pA, i.pB, i.pInt)
  }

  /** The numbers generateQ3 stores. */
  function DeriveQ3(pA: int, pB: int, pInt: int): (r: Q3Instance)
    requires ValidQ3Draw(pA, pB, pInt)
    ensures Q3WellFormed(r) && r.pA == pA && r.pB == pB && r.pInt == pInt
  {
    Q3Instance(pA, pB, pInt, pA + pB - pInt, ApproxIndependent(pA, pB, pInt))
  }

  /** Every stored Q3 problem: 0 < P(A∩B) <= min(P(A), P(B)), the union is at
      least the larger of P(A), P(B) and at most 125, and "independent" is the
      whole-number test. */
  lemma Q3InstanceBounds(i: Q3Instance)
    requires Q3WellFormed(i)
    ensures 0 < i.pInt <= Min(i.pA, i.pB)
    ensures Max(i.pA, i.pB) <= i.union <= 125
    ensures i.indep <==> IntAbs(i.pA * i.pB - 100 * i.pInt) < 100
  {
  }

  /** The union is not a probability for every draw: 70%, 60% and 5% give 125%. */
  lemma UnionCanExceedHundred()
    ensures ValidQ3Draw(70, 60, 5)
    ensures DeriveQ3(70, 60, 5).union == 125
  {
  }

  /** An independent draw exists: 50% and 20% with intersection 10%. */
  lemma Q3IndependentExample()
    ensures ValidQ3Draw(50, 20, 10) && DeriveQ3(50, 20, 10).indep
    ensures !DeriveQ3(50, 20, 5).indep
  {
  }

  /** The choice that matches the stored verdict. */
  function IndepLabel(indep: bool): string
  {
    if indep then "yes" else "no"
  }

  datatype Q3Hint = Q3Hint(union: int, indep: bool)

  /** checkQ3: the union within 1.0 and the yes/no choice matching. */
  function CheckQ3(u: Option<real>, indepSel: string, i: Q3Instance): (g: Grade<Q3Hint>)
    ensures g.InvalidInput? <==> (u.None? || indepSel == "")
    ensures g.Incorrect? ==> g.hint == Q3Hint(i.union, i.indep)
  {
    if u.None? || indepSel == "" then InvalidInput
    else
      var okU := Abs(u.value - i.union as real) <= 1.0;
      var okI := (i.indep && indepSel == "yes") || (!i.indep && indepSel == "no");
      if okU && okI then Correct else Incorrect(Q3Hint(i.union, i.indep))
  }

  /** Both fields must pass: an answer passes exactly when the union is within
      1.0 and the choice is the stored verdict's label; the stored answer passes. */
  lemma Q3GradeBothFields(u: real, indepSel: string, i: Q3Instance)
    ensures CheckQ3(Some(u), indepSel, i) == Correct
            <==> Within(u, i.union as real, 1.0) && indepSel == IndepLabel(i.indep)
    ensures CheckQ3(Some(i.union as real), IndepLabel(i.indep), i) == Correct
  {
  }

  // ---------------------------------------------------------------- Q3 (midterm)

  /** state.q3m, percentages. */
  datatype Q3mInstance = Q3mInstance(pC: int, pL: int, pLGivenC: int, pInt: real, pCond: real)

  /** generateQ3_midterm: P(C) = 60%, P(L) = 40%, P(L|C) = 50%; the joint is
      P(C)·P(L|C) and the reverse conditional P(C∩L)/P(L), both rounded to
      hundredths.  They come out as 30% and 75%, and satisfy Bayes' rule
      P(C|L)·P(L) = P(L|C)·P(C). */
  function DeriveQ3m(): (r: Q3mInstance)
    ensures r.pInt == 30.0 && r.pCond == 75.0
    ensures r.pCond * r.pL as real == r.pLGivenC as real * r.pC as real
  {
    var pC := 60;
    var pL := 40;
    var pLGivenC := 50;
    var pInt := Round2(pC as real * pLGivenC as real / 100.0);
    CentsOnHundredths(3000);
    Round2OfHundredths(30.0);
    var pCond := Round2(pInt / pL as real * 100.0);
    CentsOnHundredths(7500);
    Round2OfHundredths(75.0);
    Q3mInstance(pC, pL, pLGivenC, pInt, pCond)
  }

  datatype Q3mHint = Q3mHint(pInt: real, pCond: real)

  /** checkQ3_midterm: each entry of at most 1 is rescaled to a percent, then
      both must be within 0.5 points. */
  function CheckQ3m(u: Option<real>, c: Option<real>, i: Q3mInstance): (g: Grade<Q3mHint>)
    ensures g.InvalidInput? <==> (u.None? || c.None?)
    ensures g.Incorrect? ==> g.hint == Q3mHint(i.pInt, i.pCond)
  {
    if u.None? || c.None? then InvalidInput
    else
      var u' := AsPercent(u.value);
      var c' := AsPercent(c.value);
      var okU := Abs(u' - i.pInt) <= 0.5;
      var okC := Abs(c' - i.pCond) <= 0.5;
      if okU && okC then Correct else Incorrect(Q3mHint(i.pInt, i.pCond))
  }

  /** Both fields must pass: an answer passes exactly when each entry, after
      the proportion-to-percent rescaling, is within 0.5 points. */
  lemma Q3mGradeBothFields(u: real, c: real, i: Q3mInstance)
    ensures CheckQ3m(Some(u), Some(c), i) == Correct
            <==> Within(AsPercent(u), i.pInt, 0.5) && Within(AsPercent(c), i.pCond, 0.5)
  {
  }

  /** Percents above 1 and their proportions get the same verdict, field by field. */
  lemma Q3mUnitsAgree(x: real, y: real, i: Q3mInstance)
    requires 1.0 < x <= 100.0 && 1.0 < y <= 100.0
    ensures CheckQ3m(Some(x / 100.0), Some(y), i) == CheckQ3m(Some(x), Some(y), i)
    ensures CheckQ3m(Some(x), Some(y / 100.0), i) == CheckQ3m(Some(x), Some(y), i)
    ensures CheckQ3m(Some(x / 100.0), Some(y / 100.0), i) == CheckQ3m(Some(x), Some(y), i)
  {
    AsPercentRoundTrip(x);
    AsPercentRoundTrip(y);
  }

  /** For the generated numbers: 30 and 75, or 0.3 and 0.75, pass; a right
      joint with a wrong conditional fails. */
  lemma Q3mExample()
    ensures CheckQ3m(Some(30.0), Some(75.0), DeriveQ3m()) == Correct
    ensures CheckQ3m(Some(0.3), Some(0.75), DeriveQ3m()) == Correct
    ensures CheckQ3m(Some(30.0), Some(50.0), DeriveQ3m()).Incorrect?
  {
  }

  // ---------------------------------------------------------------- Q4 (midterm)

  /** Joint probabilities of department (A/B) by promotion (promoted / not). */
  datatype JointTable = JointTable(ap: real, an: real, bp: real, bn: real)

  const PromotionTable := JointTable(0.12, 0.28, 0.18, 0.42)

  /** state.q4m */
  datatype Q4mInstance = Q4mInstance(pA: real, pProm: real, pPromGivenA: real)

  /** generateQ4_midterm: the two marginals and P(Promoted | A) = P(A∩Promoted)/P(A)
      of the fixed table; they are 0.40, 0.30 and 0.30. */
  function DeriveQ4m(): (r: Q4mInstance)
    ensures r.pA == 0.4 && r.pProm == 0.3 && r.pPromGivenA == 0.3
    ensures r.pPromGivenA * r.pA == PromotionTable.ap
  {
    var t := PromotionTable;
    var pA := t.ap + t.an;
    var pProm := t.ap + t.bp;
    Q4mInstance(pA, pProm, t.ap / pA)
  }

  /** The table is a distribution, and promotion is independent of department:
      P(Promoted | A) = P(Promoted). */
  lemma PromotionTableFacts()
    ensures PromotionTable.ap + PromotionTable.an + PromotionTable.bp + PromotionTable.bn == 1.0
    ensures DeriveQ4m().pPromGivenA == DeriveQ4m().pProm
  {
  }

  /** checkQ4_midterm: all three numbers within 0.02, no rescaling. */
  function CheckQ4m(pa: Option<real>, pp: Option<real>, pc: Option<real>, i: Q4mInstance): (g: Grade<Q4mInstance>)
    ensures g.InvalidInput? <==> (pa.None? || pp.None? || pc.None?)
    ensures g.Incorrect? ==> g.hint == i
  {
    if pa.None? || pp.None? || pc.None? then InvalidInput
    else
      var ok1 := Abs(pa.value - i.pA) <= 0.02;
      var ok2 := Abs(pp.value - i.pProm) <= 0.02;
      var ok3 := Abs(pc.value - i.pPromGivenA) <= 0.02;
      if ok1 && ok2 && ok3 then Correct else Incorrect(i)
  }

  /** All three fields must pass; for the generated numbers, 0.4 / 0.3 / 0.3
      passes and a percent entry such as 40 does not. */
  lemma Q4mGradeAllFields(a: real, b: real, c: real, i: Q4mInstance)
    ensures CheckQ4m(Some(a), Some(b), Some(c), i) == Correct
            <==> Within(a, i.pA, 0.02) && Within(b, i.pProm, 0.02) && Within(c, i.pPromGivenA, 0.02)
    ensures CheckQ4m(Some(0.4), Some(0.3), Some(0.3), DeriveQ4m()) == Correct
    ensures CheckQ4m(Some(40.0), Some(0.3), Some(0.3), DeriveQ4m()).Incorrect?
  {
  }
}
