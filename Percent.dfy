/** `Math.round` of a non-negative ratio and the percentages the dashboard
    derives from counts, in exact integer arithmetic. */
module Percent {

  /** n is what `Math.round` returns for num/den: the integer nearest to it,
      halves going up, i.e. n - 1/2 <= num/den < n + 1/2. */
  predicate RoundsTo(num: nat, den: nat, n: int)
    requires den > 0
  {
    (2 * n - 1) * den <= 2 * num < (2 * n + 1) * den
  }

  /** At most one integer is the rounding of a ratio. */
  lemma RoundingIsUnique(num: nat, den: nat, n: int, m: int)
    requires den > 0
    requires RoundsTo(num, den, n) && RoundsTo(num, den, m)
    ensures n == m
  {
  }

  /** Multiplying by a non-negative factor keeps the order; the nonlinear
      steps below call it as a hint. */
  lemma MulMonotone(x: int, y: int, d: nat)
    requires x <= y
    ensures x * d <= y * d
  {
  }

  /** `Math.round(num / den)` for num/den >= 0: floor(num/den + 1/2). */
  function Round(num: nat, den: nat): (r: nat)
    requires den > 0
    ensures RoundsTo(num, den, r)
  {
    var q := (2 * num + den) / (2 * den);
    assert 2 * den * q <= 2 * num + den < 2 * den * q + 2 * den by {
      var m := (2 * num + den) % (2 * den);
      assert 2 * num + den == 2 * den * q + m;
      assert 0 <= m < 2 * den;
    }
    assert (2 * q - 1) * den == 2 * den * q - den;
    assert (2 * q + 1) * den == 2 * den * q + den;
    q
  }

  /** `Math.round((part / whole) * 100)`, the whole being non-zero. */
  function Percentage(part: nat, whole: nat): (r: nat)
    requires whole > 0
    ensures RoundsTo(100 * part, whole, r)
    ensures part <= whole ==> r <= 100
    ensures part == 0 ==> r == 0
    ensures part == whole ==> r == 100
  {
    var r := Round(100 * part, whole);
    if part <= whole then
      assert r <= 100 by {
        if r > 100 {
          MulMonotone(201, 2 * r - 1, whole);
        }
      }
      if part == 0 then
        assert r == 0 by {
          if r > 0 { MulMonotone(1, 2 * r - 1, whole); }
        }
        r
      else if part == whole then
        assert RoundsTo(100 * part, whole, 100) by {
          assert 199 * whole <= 200 * whole < 201 * whole;
        }
        RoundingIsUnique(100 * part, whole, r, 100);
        r
      else r
    else r
  }

  /** A percentage reads 0 exactly when the part is under one two-hundredth
      of the whole, so a non-zero part can still show as 0%. */
  lemma PercentageIsZeroIff(part: nat, whole: nat)
    requires whole > 0
    ensures Percentage(part, whole) == 0 <==> 200 * part < whole
  {
    var r := Percentage(part, whole);
    if 200 * part < whole {
      assert RoundsTo(100 * part, whole, 0);
      RoundingIsUnique(100 * part, whole, r, 0);
    }
  }
}
