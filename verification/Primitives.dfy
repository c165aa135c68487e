/** Rounding to an exchange step, on exact decimals. */
module Primitives {

  function Abs(x: real): real {
    if x < 0.0 then -x else x
  }

  function MinReal(a: real, b: real): real {
    if a <= b then a else b
  }

  function MaxReal(a: real, b: real): real {
    if a <= b then b else a
  }

  /** ROUND_DOWN: the integer part, towards zero. */
  function TowardsZero(x: real): int {
    if x >= 0.0 then x.Floor else -((-x).Floor)
  }

  /** ROUND_UP: the nearest integer away from zero. */
  function AwayFromZero(x: real): int {
    if x >= 0.0 then -((-x).Floor) else x.Floor
  }

  /** How many steps a value is, and what a whole number of steps comes to. */
  function InSteps(value: real, step: real): real
    requires step > 0.0
  {
    value / step
  }

  function Steps(n: int, step: real): real {
    n as real * step
  }

  function FloorToStep(value: real, step: real): real {
    if step <= 0.0 then value else Steps(TowardsZero(InSteps(value, step)), step)
  }

  function CeilToStep(value: real, step: real): real {
    if step <= 0.0 then value else Steps(AwayFromZero(InSteps(value, step)), step)
  }

  /** A quantity the exchange accepts: any when there is no step, else a whole number of steps. */
  ghost predicate OnStep(q: real, step: real) {
    step <= 0.0 || exists n: int :: Steps(n, step) == q
  }

  // ---- products and quotients of unknowns, one fact at a time ----

  lemma QuotientTimes(x: real, d: real)
    requires d != 0.0
    ensures x / d * d == x
  {
  }

  lemma ScaleOrder(a: real, b: real, k: real)
    requires k > 0.0
    ensures a <= b <==> a * k <= b * k
    ensures a < b <==> a * k < b * k
  {
  }

  lemma PercentWithinCap(exposure: real, equity: real, percent: real)
    requires equity >= 1.0
    ensures exposure / equity * 100.0 <= percent <==> exposure <= percent * equity / 100.0
  {
    var x := exposure / equity;
    assert x * equity == exposure;
    assert x * 100.0 <= percent <==> x <= percent / 100.0;
    var y := percent / 100.0;
    assert x <= y <==> x * equity <= y * equity by {
      if x <= y { assert (y - x) * equity >= 0.0; } else { assert (x - y) * equity > 0.0; }
    }
    assert y * equity == percent * equity / 100.0;
  }

  lemma QuotientOrder(x: real, q: real, d: real)
    requires d > 0.0
    ensures q <= x / d <==> q * d <= x
    ensures x / d <= q <==> x <= q * d
  {
    QuotientTimes(x, d);
    ScaleOrder(q, x / d, d);
    ScaleOrder(x / d, q, d);
  }

  lemma StepsAgainstValue(value: real, n: int, step: real)
    requires step > 0.0
    ensures n as real <= InSteps(value, step) <==> Steps(n, step) <= value
    ensures InSteps(value, step) <= n as real <==> value <= Steps(n, step)
  {
    QuotientOrder(value, n as real, step);
  }

  lemma StepsInOrder(n: int, m: int, step: real)
    requires step > 0.0
    ensures n <= m <==> Steps(n, step) <= Steps(m, step)
    ensures Steps(0, step) == 0.0
  {
    ScaleOrder(n as real, m as real, step);
  }

  lemma StepsSign(value: real, step: real)
    requires step > 0.0
    ensures InSteps(value, step) >= 0.0 <==> value >= 0.0
  {
    StepsAgainstValue(value, 0, step);
    StepsInOrder(0, 0, step);
  }

  /** For a value that is not negative, the floor is the greatest step multiple not above it. */
  lemma FloorIsGreatest(value: real, step: real, q: real)
    requires value >= 0.0
    ensures OnStep(FloorToStep(value, step), step)
    ensures 0.0 <= FloorToStep(value, step) <= value
    ensures OnStep(q, step) && q <= value ==> q <= FloorToStep(value, step)
  {
    hide Steps, InSteps;
    if step > 0.0 {
      var n := TowardsZero(InSteps(value, step));
      StepsSign(value, step);
      StepsAgainstValue(value, n, step);
      StepsInOrder(0, n, step);
      if OnStep(q, step) && q <= value {
        var m: int :| Steps(m, step) == q;
        StepsAgainstValue(value, m, step);
        StepsInOrder(m, n, step);
      }
    }
  }

  /** For a value that is not negative, the ceiling is the least step multiple not below it. */
  lemma CeilIsLeast(value: real, step: real, q: real)
    requires value >= 0.0
    ensures OnStep(CeilToStep(value, step), step)
    ensures value <= CeilToStep(value, step)
    ensures OnStep(q, step) && value <= q ==> CeilToStep(value, step) <= q
  {
    hide Steps, InSteps;
    if step > 0.0 {
      var n := AwayFromZero(InSteps(value, step));
      StepsSign(value, step);
      StepsAgainstValue(value, n, step);
      if OnStep(q, step) && value <= q {
        var m: int :| Steps(m, step) == q;
        StepsAgainstValue(value, m, step);
        StepsInOrder(n, m, step);
      }
    }
  }

  lemma TowardsZeroIsNotBelow(x: real, m: int)
    ensures x >= 0.0 ==> TowardsZero(x) as real <= x
    ensures x < 0.0 ==> TowardsZero(x) as real >= x
    ensures x == m as real ==> TowardsZero(x) == m
  {
  }

  /**
    "Floor" truncates: the result is not above its value exactly when there is no step, the value
    is not negative, or it is on the step already.
   */
  lemma FloorIsBelowExactly(value: real, step: real)
    ensures FloorToStep(value, step) <= value <==> step <= 0.0 || value >= 0.0 || OnStep(value, step)
  {
    hide Steps, InSteps, TowardsZero;
    if step > 0.0 {
      var n := TowardsZero(InSteps(value, step));
      StepsSign(value, step);
      StepsAgainstValue(value, n, step);
      TowardsZeroIsNotBelow(InSteps(value, step), 0);
      if OnStep(value, step) {
        var m: int :| Steps(m, step) == value;
        StepsAgainstValue(value, m, step);
        TowardsZeroIsNotBelow(InSteps(value, step), m);
      }
    }
  }
}
