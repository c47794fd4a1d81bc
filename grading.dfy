/** Pieces shared by every checker of the worksheet: a parsed numeric field,
    the verdict of one "Check" click, the absolute-tolerance comparison, the
    proportion-to-percent rescaling, and rounding to hundredths the way
    Number.prototype.toFixed(2) rounds an exact value. */
module Grading {

  /** A numeric field after parseFloat: None stands for NaN (empty or non-numeric entry). */
  datatype Option<+T> = None | Some(value: T)

  /** The verdict of one checker call.  InvalidInput is the "enter a numeric value"
      message, which leaves the exercise as it was; Incorrect carries the values
      that the feedback line reveals as a hint. */
  datatype Grade<+H> = InvalidInput | Correct | Incorrect(hint: H)

  function Abs(x: real): (r: real)
    ensures r >= 0.0 && (r == x || r == -x)
  {
    if x < 0.0 then -x else x
  }

  function IntAbs(x: int): (r: nat)
    ensures r == x || r == -x
  {
    if x < 0 then -x else x
  }

  /** Math.abs(actual - expected) <= tol, the comparison every checker makes. */
  predicate Within(actual: real, expected: real, tol: real)
  {
    Abs(actual - expected) <= tol
  }

  /** x has at most two decimals: x * 100 is a whole number. */
  predicate OnHundredths(x: real)
  {
    (x * 100.0).Floor as real == x * 100.0
  }

  lemma CentsOnHundredths(m: int)
    ensures OnHundredths(m as real / 100.0)
    ensures (m as real / 100.0 * 100.0).Floor == m
  {
    assert m as real / 100.0 * 100.0 == m as real;
  }

  /** Rounding a non-negative value to hundredths, ties upwards. */
  function RoundHalfUp2(x: real): real
    requires x >= 0.0
  {
    ((x * 100.0 + 0.5).Floor as real) / 100.0
  }

  /** +(x).toFixed(2) on an exact value: the magnitude is rounded to hundredths
      with ties away from zero, and the sign is put back. */
  function Round2(x: real): (r: real)
    ensures OnHundredths(r)
    ensures Abs(r - x) <= 0.005
  {
    if x < 0.0 then
      var q := (-x * 100.0 + 0.5).Floor;
      CentsOnHundredths(-q);
      -RoundHalfUp2(-x)
    else
      var q := (x * 100.0 + 0.5).Floor;
      CentsOnHundredths(q);
      RoundHalfUp2(x)
  }

  /** Rounding leaves a value that already has two decimals alone. */
  lemma Round2OfHundredths(x: real)
    requires OnHundredths(x)
    ensures Round2(x) == x
  {
    var m := (x * 100.0).Floor;
    assert x * 100.0 == m as real;
    if x < 0.0 {
      assert -x * 100.0 + 0.5 == (-m) as real + 0.5;
      assert (-x * 100.0 + 0.5).Floor == -m;
    } else {
      assert (x * 100.0 + 0.5).Floor == m;
    }
  }

  /** The rescaling the Q2 and midterm Q3 checkers apply before comparing:
      an entry of at most 1 is read as a proportion and turned into a percent. */
  function AsPercent(v: real): (r: real)
    ensures v > 1.0 ==> r == v
    ensures 0.01 < v ==> r > 1.0
    ensures 0.0 <= v ==> v <= r
  {
    if v <= 1.0 then v * 100.0 else v
  }

  /** A percent above 1 and the same quantity written as a proportion are read
      as the same percent. */
  lemma AsPercentRoundTrip(x: real)
    requires 1.0 < x <= 100.0
    ensures AsPercent(x / 100.0) == x
    ensures AsPercent(x) == x
  {
  }

  /** A percent of at most 1 is misread as a proportion: it is multiplied by
      100 and no longer equals what the learner meant. */
  lemma AsPercentMisreadsSmallPercent(x: real)
    requires 0.0 < x <= 1.0
    ensures AsPercent(x) == 100.0 * x
    ensures AsPercent(x) != x
  {
  }
}
