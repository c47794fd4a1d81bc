# Statistics practice worksheet: answer derivation and grading

This project models the computational core of a browser-based statistics worksheet (`app.js`). Each exercise has a generator. The generator draws parameters, derives the correct answer(s) and stores them in the exercise's slot of a global `state` object. A matching checker then grades the learner's entries against the stored answers, using an absolute tolerance. Some checkers first rescale a proportion to a percent.

The model has six modules:

- `Grading` (`grading.dfy`) holds the shared pieces. A parsed numeric field is `Option<real>`, where `None` stands for NaN. The verdict of one check is `Grade<H>`: `InvalidInput`, `Correct`, or `Incorrect` with the stored values behind the feedback text, before display rounding. The module also defines the tolerance comparison, the "≤ 1 means proportion" rescaling, and `Round2`. `Round2` is `+x.toFixed(2)` applied to an exact value.
- `EmpiricalRule` (`empirical_rule.dfy`) covers Q1's context and Q2's mean, standard deviation, k and threshold. It also holds the 68–95–99.7 tail table and the Q2 checker.
- `Probability` (`probability.dfy`) covers three exercises. Q3 is union and independence. Midterm Q3 is joint and conditional probability with fixed numbers. Midterm Q4 is the two-way promotion table.
- `Inference` (`inference.dfy`) covers five exercises. Q4 is the 95% confidence interval and Q5 the two-sided test of a mean. Midterm Q6 is a one-sided z-test, midterm Q7 an interval, and midterm Q8 the rescaling rule of the β checker.
- `Decision` (`decision.dfy`) covers the expected-value bonus and the correlation-versus-causation multiple choice.
- `Worksheet` (`worksheet.dfy`) defines the `Session` class. It has one field per `state` slot. Each single-exercise generator is a method whose `modifies` frame is only its own slot, so the verifier checks that it touches no other exercise's slot. `GenerateMidtermAll` and `MidtermTwice` are framed to the six slots they regenerate. `Regenerate` may change the whole session, and its postcondition states every field it leaves behind. `Session.Valid()` states that every stored answer is the derivation of the parameters stored beside it.

Random draws are arguments, constrained to the ranges the generators use. Decimal draws are given in tenths or cents, or as reals with at most two decimals. A standard error `s/Math.sqrt(n)` is a real `se` with `se > 0` and `se·se·n = s·s`.

Observations the proofs settle:

- The range P(A∩B) is drawn from, `[5, min(P(A),P(B)) − 3]`, is never empty: its upper end is at least 12 (`Q3RangeNeverEmpty`).
- The Q3 union is not always a probability. The draw 70%, 60%, 5% is allowed and gives a union of 125% (`UnionCanExceedHundred`). The generator is modelled as written. The proved bound on the union is 125, not 100.
- In `app.js`, the chain that regenerates the page never calls `generateQ3`, `generateQ4` or `generateQ5`. It runs `generateMidtermAll` twice (`Session.Regenerate`).
- The two tests pick their critical value differently. Q4 compares `n` with 30 (app.js:292), and Q5 compares `df = n − 1` with 30 (app.js:329). The sample sizes drawn are 35 or more, so both always use 1.96.
- Every tolerance in the checkers is absolute.
- Q4 stores its bounds rounded to hundredths (app.js:294-295). Its interval is therefore 2·t*·se wide only to within 0.01 (`Q4IntervalProperties`). The midterm Q7 interval is stored unrounded and is exactly 2·2.009·se wide (`DeriveQ7`).

## Model

| member | source | states |
|---|---|---|
| `Grading.Round2` | app.js:372-375 | rounding to hundredths lands on a two-decimal value within 0.005 of the input |
| `Grading.Round2OfHundredths` | app.js:372-375 | a value that already has two decimals is left unchanged by rounding |
| `Grading.CentsOnHundredths` | app.js:283-284 | a whole number of cents divided by 100 has two decimals |
| `Grading.AsPercent` | app.js:125 | an entry above 1 is kept as a percent; every entry above 0.01 ends as a percent above 1; a non-negative entry never shrinks |
| `Grading.AsPercentRoundTrip` | app.js:124-125 | a percent in (1, 100] and the same quantity as a proportion are both read as that percent |
| `Grading.AsPercentMisreadsSmallPercent` | app.js:124-125 | a percent of at most 1 is taken as a proportion and multiplied by 100 |
| `EmpiricalRule.Q1Of` | app.js:36-42 | Q1's context names a listed company and metric and carries the drawn sample size |
| `EmpiricalRule.DeriveQ2` | app.js:65-74 | mu and sigma are in their one-decimal ranges, the threshold is exactly mu + k·sigma after rounding, and its z-score is k |
| `EmpiricalRule.ThresholdIsExact` | app.js:69 | toFixed(2) never moves mu + k·sigma, because it already has two decimals |
| `EmpiricalRule.ZScoreOfShift` | app.js:99 | a point k standard deviations above the mean has z-score exactly k |
| `EmpiricalRule.ExplainedTailPercent` | app.js:100-103 | the tail shown in the explanation is positive and at most 16, and every k other than 2 and 3 falls back to 16 |
| `EmpiricalRule.ExpectedTailPercent` | app.js:128-130 | the expected tail is positive and at most 16, and every k other than 2 and 3 falls back to 16 |
| `EmpiricalRule.Tolerance` | app.js:133 | the tolerance is positive and at most 2, and every k other than 1 and 2 gets 0.1 |
| `EmpiricalRule.TailTablesAgree` | app.js:100-103 | the explanation's tail and the checker's expected tail agree for every k; for k in 1..3 the tail is half of what lies outside ±kσ; the tolerance is positive and below the tail |
| `EmpiricalRule.TailTableValues` | app.js:127-133 | k = 1, 2, 3 expect 16.0, 2.5, 0.15 percent with tolerance 2.0, 0.8, 0.1 |
| `EmpiricalRule.CheckQ2` | app.js:116-141 | NaN is invalid input and any other entry is graded; a wrong answer's hint carries z = k and the expected tail |
| `EmpiricalRule.Q2AcceptanceWindows` | app.js:124-135 | for k in 1..3, an entry passes iff it lies in the listed window: percent or proportion for k = 1 and 2, proportion only for k = 3 |
| `EmpiricalRule.Q2Example` | app.js:125-139 | for mu = 8.4, sigma = 1.2, k = 1 the threshold is 9.6; 16 and 0.16 pass; 20 fails with hint 16 |
| `EmpiricalRule.Q2PercentFormRejectedAtThreeSigma` | app.js:125-139 | at k = 3 every percent-form entry within 0.1 of 0.15 fails, 0.15 included |
| `EmpiricalRule.CheckQ2Tagged` | app.js:116-141 | the Q2 checker with the unit stated explicitly; a missing entry is invalid input |
| `EmpiricalRule.Q2TaggedUnitsAgree` | app.js:124-135 | with explicit units, a percent and its proportion get the same verdict, a percent within tolerance passes, and the result matches the size-based rule wherever that rule reads the unit right |
| `Probability.Q3RangeNeverEmpty` | app.js:240-242 | the upper end of the intersection range is at least 12, so 5 and that upper end are both valid draws |
| `Probability.ProportionGap` | app.js:252 | the proportion gap \|P(A)P(B) − P(A∩B)\| equals \|pA·pB − 100·pInt\| / 10000 exactly |
| `Probability.ApproxIndependent` | app.js:252 | the proportion test \|P(A)P(B) − P(A∩B)\| < 0.01 holds iff \|pA·pB − 100·pInt\| < 100 |
| `Probability.DeriveQ3` | app.js:237-254 | the stored Q3 problem is well formed and keeps the drawn percentages |
| `Probability.Q3InstanceBounds` | app.js:238-254 | 0 < P(A∩B) ≤ min(P(A),P(B)); max(P(A),P(B)) ≤ union ≤ 125; "independent" is the whole-number test |
| `Probability.UnionCanExceedHundred` | app.js:251 | the allowed draw 70, 60, 5 gives a union of 125 |
| `Probability.Q3IndependentExample` | app.js:252 | 50%, 20%, 10% is judged independent, and 50%, 20%, 5% is not |
| `Probability.CheckQ3` | app.js:261-277 | invalid iff the union is NaN or no choice is made; the hint carries the union and the verdict |
| `Probability.Q3GradeBothFields` | app.js:269-271 | an answer passes iff the union is within 1.0 AND the choice matches the verdict; the stored answer passes |
| `Probability.DeriveQ3m` | app.js:424-432 | the joint comes out at 30% and the reverse conditional at 75%, consistent with Bayes' rule |
| `Probability.CheckQ3m` | app.js:449-463 | invalid iff either entry is NaN; the hint carries both stored values |
| `Probability.Q3mGradeBothFields` | app.js:455-460 | an answer passes iff both entries, after the proportion-to-percent rescaling, are within 0.5 points of the stored values |
| `Probability.Q3mUnitsAgree` | app.js:455-460 | percents above 1 and their proportions get the same verdict, in either field |
| `Probability.Q3mExample` | app.js:449-463 | 30/75 and 0.3/0.75 pass; a right joint with a wrong conditional fails |
| `Probability.DeriveQ4m` | app.js:495-500 | P(A) = 0.40, P(Promoted) = 0.30, P(Promoted \| A) = 0.30, and P(Promoted \| A)·P(A) is the joint cell |
| `Probability.PromotionTableFacts` | app.js:496-499 | the table sums to 1, and promotion is independent of department |
| `Probability.CheckQ4m` | app.js:516-530 | invalid iff any entry is NaN; the hint carries all three stored values |
| `Probability.Q4mGradeAllFields` | app.js:521-525 | an answer passes iff all three entries are within 0.02; 0.4/0.3/0.3 passes and a percent entry fails |
| `Inference.StandardErrorAboveHalf` | app.js:282-293 | with s ≥ 6 and n ≤ 120, s/√n exceeds 0.5 |
| `Inference.TwoPointCritical` | app.js:292 | the critical value is 1.96 or 2.045, and it is 1.96 iff its argument is at least 30 (Q4 passes `n`, Q5 passes `df` at app.js:329) |
| `Inference.DeriveQ4` | app.js:280-296 | the stored interval is well formed and keeps n, xbar, s and se |
| `Inference.Q4IntervalProperties` | app.js:292-296 | t* = 1.96; lower < xbar < upper; each bound is within 0.005 of xbar ∓ 1.96·se; the width is 2·1.96·se to within 0.01 |
| `Inference.CheckQ4` | app.js:307-318 | invalid iff either bound is NaN; the hint carries the stored bounds |
| `Inference.Q4GradeBothBounds` | app.js:312 | an answer passes iff both bounds are within 0.15; the stored and the unrounded intervals pass |
| `Inference.DeriveQ5` | app.js:321-331 | the stored test is well formed and keeps its draws |
| `Inference.ScaleByPositive` | app.js:327 | multiplying by a positive standard error preserves "\|t\| exceeds the critical value" |
| `Inference.Q5Decision` | app.js:353 | the expected decision is "reject" or "fail", and it is "reject" iff \|t\| exceeds tcrit |
| `Inference.Q5DecisionRule` | app.js:326-336 | df ≥ 34, so tcrit = 1.96; the decision is reject iff \|xbar − mu0\| > 1.96·se |
| `Inference.CheckQ5` | app.js:345-360 | invalid iff t is NaN or no decision is chosen; the hint carries t and the decision |
| `Inference.Q5GradeBothFields` | app.js:352-354 | an answer passes iff t is within 0.15 AND the decision is the one the rejection rule gives |
| `Inference.DeriveQ6` | app.js:582-586 | se = 1 and z = −1.5, which the one-sided rule at −1.645 does not reject |
| `Inference.CheckQ6` | app.js:605-618 | invalid iff z is NaN or no decision is chosen; the hint carries z |
| `Inference.Q6FixedDecisionIsRuleDecision` | app.js:610-612 | the hard-coded "fail" is the one-sided rule's decision: an answer passes iff z is within 0.1 of −1.5 and the decision is the rule's; "reject" always fails |
| `Inference.DeriveQ7` | app.js:640-646 | lo < 42 < hi, and hi − lo = 2·2.009·se exactly |
| `Inference.Q7StandardErrorBounds` | app.js:642 | 8/√50 lies strictly between 1.131 and 1.132 |
| `Inference.CheckQ7` | app.js:663-671 | invalid iff either bound is NaN; the hint carries the stored bounds |
| `Inference.Q7GradeBothBounds` | app.js:668 | an answer passes iff both bounds are within 0.2 of the stored ones |
| `Inference.Q7Example` | app.js:663-670 | the interval lies within (39.72, 39.73) × (44.27, 44.28); (39.73, 44.27) and (39.6, 44.4) pass; (39.5, 44.27) fails |
| `Inference.DeriveQ8` | app.js:706-714 | se = 2; the acceptance region is [96.08, 103.92] and contains the true mean 102; β is kept as given |
| `Inference.CheckQ8` | app.js:730-739 | invalid iff the entry is NaN; the hint carries β |
| `Inference.BetaAsProportion` | app.js:735 | a non-negative entry is never enlarged, and every entry up to 100.01 ends as a proportion of at most 1.0001 |
| `Inference.BetaUnitsAgree` | app.js:734-736 | a proportion in (0.010001, 1.0001] and its percent get the same verdict |
| `Decision.WeightedCents` | app.js:372-373 | a whole payoff weighted by a probability in cents is a whole number of cents |
| `Decision.ComplementIsExact` | app.js:366 | pBad = 1 − pGood exactly, despite the rounding |
| `Decision.ExpectedValueIsExact` | app.js:372-373 | the expected value has two decimals, so rounding leaves it unchanged |
| `Decision.AbsDifferenceOnHundredths` | app.js:375 | the gap between two two-decimal values has two decimals |
| `Decision.DeriveEV` | app.js:365-375 | the stored problem keeps pGood and the four payoffs; the winner is "A" or "B", and it is "A" iff EV(A) ≥ EV(B) |
| `Decision.EVStoredValuesExact` | app.js:365-373 | pGood + pBad = 1; the stored EV(A) and EV(B) are the exact expected values |
| `Decision.EVBonusProperties` | app.js:365-377 | pGood + pBad = 1; winner = "A" iff EV(A) ≥ EV(B), so ties go to A; the winner's EV is the larger; evdiff = \|EV(A) − EV(B)\| ≥ 0 is the winner's margin |
| `Decision.CheckEV` | app.js:394-410 | invalid iff no action is chosen or the difference is NaN; the hint carries the winner and the difference |
| `Decision.EVGradeBothFields` | app.js:399-405 | an answer passes iff an action is chosen, it is the winner, and the difference is within 1.0 of evdiff |
| `Decision.EVWorseChoiceFails` | app.js:403-405 | choosing the action with the strictly lower EV fails whatever difference is entered; the stored answer passes |
| `Decision.EVExample` | app.js:365-375 | pGood = 0.6, A = (100, −20), B = (80, 5) give 52 and 50, winner A by 2; "A" with 2.5 passes, "B" fails |
| `Decision.CheckQ5Mcq` | app.js:947-958 | a sheet passes only if it answers "no", names market size or reverse causality, and picks the overspend risk |
| `Decision.Q5McqAcceptedSheets` | app.js:947-958 | exactly two answer sheets pass: (no, market, overspend) and (no, reverse, overspend) |
| `Worksheet.Session.constructor` | app.js:25-32 | the initial state is n = 100, mu = 8.4, sigma = 1.2, k = 1, threshold = 9.6, with no exercise slots, and it already satisfies the session invariant |
| `Worksheet.Session.GenerateNumbers` | app.js:34-74 | only the Q1/Q2 fields change; they take the derived values; the threshold's z-score is k; the invariant is kept |
| `Worksheet.Session.GenerateQ3` | app.js:237-254 | only `q3` changes and it holds the derived problem |
| `Worksheet.Session.GenerateQ4` | app.js:280-296 | only `q4` changes and it holds the derived interval |
| `Worksheet.Session.GenerateQ5` | app.js:321-331 | only `q5` changes and it holds the derived test |
| `Worksheet.Session.GenerateEVBonus` | app.js:363-377 | only `bonus` changes and it holds the derived problem |
| `Worksheet.Session.GenerateQ3Midterm` | app.js:424-432 | only `q3m` changes |
| `Worksheet.Session.GenerateQ4Midterm` | app.js:495-500 | only `q4m` changes |
| `Worksheet.Session.GenerateQ6Midterm` | app.js:582-586 | only `q6m` changes |
| `Worksheet.Session.GenerateQ7Midterm` | app.js:640-646 | only `q7m` changes |
| `Worksheet.Session.GenerateQ8Midterm` | app.js:706-714 | only `q8m` changes |
| `Worksheet.Session.GenerateMidtermAll` | app.js:782-792 | the five midterm slots and the bonus are regenerated in source order; the basic exercise slots are untouched |
| `Worksheet.Session.MidtermTwice` | app.js:795-802 | the two hooked calls of generateMidtermAll leave the second round's midterm items and bonus; nothing outside those six slots changes |
| `Worksheet.Session.Regenerate` | app.js:936-945 | the hooked regenerate runs the original generator and then the midterm round twice; n, the Q1 context, mu, sigma, k and threshold take the new draws, with z-score k; all five midterm slots and the bonus hold the last round's values; Q3, Q4 and Q5 keep their old values |

## Findings

| source | as written | input that shows it | evidently intended | confidence | as-written member | corrected member |
|---|---|---|---|---|---|---|
| app.js:125-139 | every Q2 entry ≤ 1 is rescaled ×100 before it is compared with the expected tail percent | k = 3: the hint says the tail is "about 0.15%", yet typing 0.15 is read as 15% and rejected, and so is every percent entry in 0.05..0.25 | a percent entry of 0.15 at k = 3 should pass, so the unit must be known rather than guessed from the size | not executed; high that the entry is rejected, medium that this was unintended | `EmpiricalRule.Q2PercentFormRejectedAtThreeSigma` | `EmpiricalRule.Q2TaggedUnitsAgree` |

No other member consumes a Q2 verdict. The corrected checker `CheckQ2Tagged` sits beside the as-written `CheckQ2`.

## Left out

- DOM reads and writes, event binding and show/hide toggles are not modelled. Inputs arrive as parsed numbers (`None` for NaN) and as selected strings (`""` for no selection).
- Feedback text and its colours are not modelled. A wrong answer's hint is modelled as the stored values behind the text, before display rounding. The source prints several of them with `toFixed` (t and z to two decimals, β to three).
- `parseFloat`'s acceptance of a numeric prefix ("16abc") and of "Infinity" is not modelled. The models start from the parsed value.
- Canvas drawing is not modelled (the normal curve, z-test, interval, β plot, two-way table bars and scatter plot). It is rendering only.
- `Math.random` is left out. Each draw is an argument constrained to its generator's range.
- `Math.sqrt` is left out. Standard errors are arguments related to s and n by se·se·n = s·s. Exact square roots (√36 = 6, √25 = 5) are written as constants.
- `phi` and `normalPDF` are not modelled. They are floating-point approximations of transcendental functions. The Q8 β is therefore an argument of `GenerateQ8Midterm`.
- Floating-point behaviour is not modelled. Values are exact reals, so IEEE rounding at tolerance boundaries, and `toFixed` on values that are not exactly representable, are outside the model.
- The function replacement of `window.generateNumbers` and its flags are not modelled. Only the composed effect is, in `Session.Regenerate`.
- The guidance-only exercises (`setupQ5`, `setupQ9`, `drawQ10`) and the Q1 answer-sheet text are left out.
- `checkEVBonus` returns early when the feedback element is missing. That case is left out, since the element is a page concern.
- Calling a checker before its generator has run is left out. In the source, a checker then reads an undefined slot and throws. Here the checkers take the stored instance.
- `password.js` is not part of this model. It is a page overlay unlocked by one string comparison.
