/** Decision exercises: the expected-value bonus (generateEVBonus / checkEVBonus)
    and the correlation-versus-causation multiple choice (checkQ5_mcq). */
module Decision {
  import opened Grading

  /** generateEVBonus's draws: pGood in 0.30..0.80 to hundredths (given in
      cents), and four whole payoffs. */
  datatype EVDraw = EVDraw(pGoodCents: int, aPayGood: int, aPayBad: int, bPayGood: int, bPayBad: int)

  predicate ValidEVDraw(d: EVDraw)
  {
    30 <= d.pGoodCents <= 80
    && 50 <= d.aPayGood <= 150 && -70 <= d.aPayBad <= 20
    && 40 <= d.bPayGood <= 160 && -80 <= d.bPayBad <= 10
  }

  /** state.bonus */
  datatype EVInstance = EVInstance(
    pGood: real, pBad: real,
    aPayGood: int, aPayBad: int, bPayGood: int, bPayBad: int,
    evA: real, evB: real, winner: string, evdiff: real)

  /** A payoff weighted by the probability of its state. */
  function Weighted(p: real, payoff: int): real
  {
    p * payoff as real
  }

  /** Expected payoff of an action over the two market states. */
  function ExpectedValue(pGood: real, good: int, bad: int): real
  {
    Weighted(pGood, good) + Weighted(1.0 - pGood, bad)
  }

  /** The numbers generateEVBonus stores: pBad, both expected values and the
      difference are each rounded to hundredths; the winner is A on ties. */
  function DeriveEV(d: EVDraw): (r: EVInstance)
    ensures r.pGood == d.pGoodCents as real / 100.0
    ensures r.aPayGood == d.aPayGood && r.aPayBad == d.aPayBad
    ensures r.bPayGood == d.bPayGood && r.bPayBad == d.bPayBad
    ensures r.winner == "A" || r.winner == "B"
    ensures r.winner == "A" <==> r.evA >= r.evB
  {
    var pGood := d.pGoodCents as real / 100.0;
    var pBad := Round2(1.0 - pGood);
    var evA := Round2(Weighted(pGood, d.aPayGood) + Weighted(pBad, d.aPayBad));
    var evB := Round2(Weighted(pGood, d.bPayGood) + Weighted(pBad, d.bPayBad));
    var winner := if evA >= evB then "A" else "B";
    var evdiff := Round2(Abs(evA - evB));
    EVInstance(pGood, pBad, d.aPayGood, d.aPayBad, d.bPayGood, d.bPayBad, evA, evB, winner, evdiff)
  }

  /** Expected value of the action named by a choice. */
  function EVOf(i: EVInstance, choice: string): real
  {
    if choice == "A" then i.evA else i.evB
  }

  /** A whole payoff times a probability in cents is an amount in cents. */
  lemma WeightedCents(c: int, a: int)
    ensures Weighted(c as real / 100.0, a) == (c * a) as real / 100.0
  {
    assert c as real * a as real == (c * a) as real;
  }

  /** 1 - pGood is already in cents, so pBad is exactly 1 - pGood. */
  lemma ComplementIsExact(c: int)
    ensures Round2(1.0 - c as real / 100.0) == 1.0 - c as real / 100.0
    ensures 1.0 - c as real / 100.0 == (100 - c) as real / 100.0
  {
    assert 1.0 - c as real / 100.0 == (100 - c) as real / 100.0;
    CentsOnHundredths(100 - c);
    Round2OfHundredths(1.0 - c as real / 100.0);
  }

  /** With pGood in cents and whole payoffs the expected value is an amount in
      cents, so rounding it to hundredths changes nothing. */
  lemma ExpectedValueIsExact(c: int, good: int, bad: int)
    ensures OnHundredths(ExpectedValue(c as real / 100.0, good, bad))
    ensures Round2(ExpectedValue(c as real / 100.0, good, bad)) == ExpectedValue(c as real / 100.0, good, bad)
  {
    ComplementIsExact(c);
    WeightedCents(c, good);
    WeightedCents(100 - c, bad);
    var m := c * good + (100 - c) * bad;
    assert ExpectedValue(c as real / 100.0, good, bad) == m as real / 100.0;
    CentsOnHundredths(m);
    Round2OfHundredths(ExpectedValue(c as real / 100.0, good, bad));
  }

  /** The difference of two amounts in cents is an amount in cents. */
  lemma AbsDifferenceOnHundredths(x: real, y: real)
    requires OnHundredths(x) && OnHundredths(y)
    ensures OnHundredths(Abs(x - y))
  {
    var a := (x * 100.0).Floor;
    var b := (y * 100.0).Floor;
    assert Abs(x - y) == IntAbs(a - b) as real / 100.0;
    CentsOnHundredths(IntAbs(a - b));
  }

  /** The stored probabilities and expected values are the exact ones. */
  lemma EVStoredValuesExact(d: EVDraw)
    ensures DeriveEV(d).pGood + DeriveEV(d).pBad == 1.0
    ensures DeriveEV(d).evA == ExpectedValue(DeriveEV(d).pGood, d.aPayGood, d.aPayBad)
    ensures DeriveEV(d).evB == ExpectedValue(DeriveEV(d).pGood, d.bPayGood, d.bPayBad)
    ensures OnHundredths(DeriveEV(d).evA) && OnHundredths(DeriveEV(d).evB)
  {
    ComplementIsExact(d.pGoodCents);
    ExpectedValueIsExact(d.pGoodCents, d.aPayGood, d.aPayBad);
    ExpectedValueIsExact(d.pGoodCents, d.bPayGood, d.bPayBad);
  }

  /** Every generated bonus problem: the two probabilities sum to 1, the stored
      expected values are the exact ones, the winner is an action with the
      larger expected value (A on a tie), and the difference is the winner's
      margin, never negative. */
  lemma EVBonusProperties(d: EVDraw)
    ensures var i := DeriveEV(d);
      && i.pGood + i.pBad == 1.0
      && i.evA == ExpectedValue(i.pGood, d.aPayGood, d.aPayBad)
      && i.evB == ExpectedValue(i.pGood, d.bPayGood, d.bPayBad)
      && (i.winner == "A" <==> i.evA >= i.evB)
      && (i.winner == "A" || i.winner == "B")
      && EVOf(i, i.winner) >= i.evA && EVOf(i, i.winner) >= i.evB
      && i.evdiff == Abs(i.evA - i.evB) >= 0.0
      && i.evdiff == EVOf(i, i.winner) - (if i.winner == "A" then i.evB else i.evA)
  {
    var i := DeriveEV(d);
    EVStoredValuesExact(d);
    AbsDifferenceOnHundredths(i.evA, i.evB);
    Round2OfHundredths(Abs(i.evA - i.evB));
  }

  datatype EVHint = EVHint(winner: string, evdiff: real)

  /** checkEVBonus: the chosen action is the winner and the difference is
      within 1.0. */
  function CheckEV(choice: string, diff: Option<real>, i: EVInstance): (g: Grade<EVHint>)
    ensures g.InvalidInput? <==> (choice == "" || diff.None?)
    ensures g.Incorrect? ==> g.hint == EVHint(i.winner, i.evdiff)
  {
    if choice == "" || diff.None? then InvalidInput
    else
      var okC := choice == i.winner;
      var okD := Abs(diff.value - i.evdiff) <= 1.0;
      if okC && okD then Correct else Incorrect(EVHint(i.winner, i.evdiff))
  }

  /** Both fields must pass: an answer passes exactly when an action is
      chosen, it is the winner, and the difference is within 1.0. */
  lemma EVGradeBothFields(choice: string, diff: real, i: EVInstance)
    ensures CheckEV(choice, Some(diff), i) == Correct
            <==> choice != "" && choice == i.winner && Within(diff, i.evdiff, 1.0)
  {
  }

  /** Choosing an action whose expected value is strictly below the other's
      always fails, whatever difference is entered; the stored answer passes. */
  lemma EVWorseChoiceFails(d: EVDraw, diff: real)
    ensures var i := DeriveEV(d);
      && (i.evA < i.evB ==> CheckEV("A", Some(diff), i).Incorrect?)
      && (i.evB <= i.evA ==> CheckEV("B", Some(diff), i).Incorrect?)
      && CheckEV(i.winner, Some(i.evdiff), i) == Correct
  {
    EVBonusProperties(d);
  }

  /** The worked example: pGood = 0.6, A pays 100 / -20, B pays 80 / 5, so
      EV(A) = 52, EV(B) = 50, A wins by 2; "A" with 2.5 passes, "B" does not. */
  lemma EVExample()
    ensures ValidEVDraw(EVDraw(60, 100, -20, 80, 5))
    ensures DeriveEV(EVDraw(60, 100, -20, 80, 5)).evA == 52.0
    ensures DeriveEV(EVDraw(60, 100, -20, 80, 5)).evB == 50.0
    ensures DeriveEV(EVDraw(60, 100, -20, 80, 5)).winner == "A"
    ensures DeriveEV(EVDraw(60, 100, -20, 80, 5)).evdiff == 2.0
    ensures CheckEV("A", Some(2.5), DeriveEV(EVDraw(60, 100, -20, 80, 5))) == Correct
    ensures CheckEV("B", Some(2.0), DeriveEV(EVDraw(60, 100, -20, 80, 5))).Incorrect?
  {
    EVBonusProperties(EVDraw(60, 100, -20, 80, 5));
  }

  // ---------------------------------------------------------------- Q5 multiple choice

  /** checkQ5_mcq: the radio answer (None when nothing is checked) must be "no",
      the alternative explanation "market" or "reverse", the risk "overspend". */
  function CheckQ5Mcq(a: Option<string>, b: string, c: string): (r: bool)
    ensures r ==> a == Some("no") && (b == "market" || b == "reverse") && c == "overspend"
  {
    var ok := true;
    var ok := if a.None? || a.value != "no" then false else ok;
    var ok := if !(b == "market" || b == "reverse") then false else ok;
    if c != "overspend" then false else ok
  }

  /** Exactly two answer sheets pass. */
  lemma Q5McqAcceptedSheets(a: Option<string>, b: string, c: string)
    ensures CheckQ5Mcq(a, b, c)
            <==> (a, b, c) == (Some("no"), "market", "overspend")
                 || (a, b, c) == (Some("no"), "reverse", "overspend")
  {
  }
}
