/**
 * Keeping a rating inside [800, 2000]
 * (src/features/card/logic/elo/enforceBounds.ts): `EnforceBounds` damps
 * linearly within 50 points of a bound, `EnforceExponentialBounds`
 * quadratically within 100 points.
 */
module Bounds {

  const MinElo: real := 800.0
  const MaxElo: real := 2000.0
  const LinearZone: real := 50.0
  const LinearFloor: real := 0.1
  const ExponentialZone: real := 100.0
  const ExponentialFloor: real := 0.05

  function Max(a: real, b: real): real
  {
    if a >= b then a else b
  }

  /** `Math.pow(x, 2)`. */
  function Square(x: real): real
  {
    x * x
  }

  lemma SquareBelowHalf(x: real)
    requires 0.0 <= x <= 0.5
    ensures 0.0 <= Square(x) <= x * 0.5
  {
    assert x * x <= x * 0.5;
  }

  lemma SquareBelowOne(x: real)
    requires 0.0 <= x <= 1.0
    ensures 0.0 <= Square(x) <= 1.0
  {
    assert x * x <= x * 1.0;
  }

  predicate InRange(elo: real)
  {
    MinElo <= elo <= MaxElo
  }

  /**
   * The change that reaches `current + result` in [800, 2000] moves the same
   * way as the proposal, by no more than it.
   */
  predicate KeepsInRange(current: real, proposedChange: real, result: real)
  {
    && InRange(current + result)
    && (proposedChange > 0.0 ==> 0.0 <= result <= proposedChange)
    && (proposedChange < 0.0 ==> proposedChange <= result <= 0.0)
    && (proposedChange == 0.0 ==> result == 0.0)
  }

  /** Scaling by a factor in (0, 1] keeps the sign and does not grow the magnitude. */
  lemma ScaleWithin(change: real, factor: real, scaled: real)
    requires 0.0 < factor <= 1.0 && scaled == change * factor
    ensures change > 0.0 ==> 0.0 < scaled <= change
    ensures change < 0.0 ==> change <= scaled < 0.0
    ensures change == 0.0 ==> scaled == 0.0
  {
    if change > 0.0 {
      assert change * factor <= change * 1.0;
    } else if change < 0.0 {
      assert change * factor >= change * 1.0;
    }
  }

  /** A change scaled by a damping factor in (0, 1]. */
  function Damped(currentElo: real, proposedChange: real, factor: real): (r: real)
    requires 0.0 < factor <= 1.0
    ensures InRange(currentElo) && InRange(currentElo + proposedChange) ==> KeepsInRange(currentElo, proposedChange, r)
  {
    var scaled := proposedChange * factor;
    ScaleWithin(proposedChange, factor, scaled);
    scaled
  }

  /** The linear damping factor applied when the target lands in a 50-point edge zone. */
  function LinearFactor(currentElo: real, proposedChange: real): (f: real)
    ensures 0.0 < f <= 1.0
    ensures proposedChange > 0.0 && currentElo > MaxElo - LinearZone ==> f == Max(LinearFloor, (MaxElo - currentElo) / LinearZone)
    ensures proposedChange < 0.0 && currentElo < MinElo + LinearZone ==> f == Max(LinearFloor, (currentElo - MinElo) / LinearZone)
    ensures !(proposedChange > 0.0 && currentElo > MaxElo - LinearZone) && !(proposedChange < 0.0 && currentElo < MinElo + LinearZone) ==> f == 1.0
  {
    if proposedChange > 0.0 then
      if currentElo > MaxElo - LinearZone then Max(LinearFloor, (MaxElo - currentElo) / LinearZone) else 1.0
    else if proposedChange < 0.0 then
      if currentElo < MinElo + LinearZone then Max(LinearFloor, (currentElo - MinElo) / LinearZone) else 1.0
    else 1.0
  }

  /**
   * `enforceBounds(currentElo, proposedChange)`: a hard stop at a bound already
   * reached, an exact clamp for an overshoot, the change itself when the
   * target lies in [850, 1950], and the damped change otherwise. From a
   * rating in [800, 2000] the result never leaves the range.
   */
  function EnforceBounds(currentElo: real, proposedChange: real): (r: real)
    ensures currentElo <= MinElo && proposedChange < 0.0 ==> r == 0.0
    ensures currentElo >= MaxElo && proposedChange > 0.0 ==> r == 0.0
    ensures InRange(currentElo) ==> KeepsInRange(currentElo, proposedChange, r)
  {
    var targetElo := currentElo + proposedChange;
    if currentElo <= MinElo && proposedChange < 0.0 then 0.0
    else if currentElo >= MaxElo && proposedChange > 0.0 then 0.0
    else if targetElo > MaxElo then MaxElo - currentElo
    else if targetElo < MinElo then MinElo - currentElo
    else if MinElo + LinearZone <= targetElo <= MaxElo - LinearZone then proposedChange
    else
      Damped(currentElo, proposedChange, LinearFactor(currentElo, proposedChange))
  }

  /** The quadratic damping factor of the exponential variant, floored at 0.05. */
  function QuadraticFactor(currentElo: real, proposedChange: real): (f: real)
    requires MinElo <= currentElo <= MaxElo
    ensures 0.0 < f <= 1.0
    ensures proposedChange > 0.0 && currentElo > MaxElo - ExponentialZone ==>
              f == Max(ExponentialFloor, Square((MaxElo - currentElo) / ExponentialZone))
    ensures proposedChange < 0.0 && currentElo < MinElo + ExponentialZone ==>
              f == Max(ExponentialFloor, Square((currentElo - MinElo) / ExponentialZone))
  {
    if proposedChange > 0.0 && currentElo > MaxElo - ExponentialZone then
      var normalizedDistance := (MaxElo - currentElo) / ExponentialZone;
      SquareBelowOne(normalizedDistance);
      Max(ExponentialFloor, Square(normalizedDistance))
    else if proposedChange < 0.0 && currentElo < MinElo + ExponentialZone then
      var normalizedDistance := (currentElo - MinElo) / ExponentialZone;
      SquareBelowOne(normalizedDistance);
      Max(ExponentialFloor, Square(normalizedDistance))
    else 1.0
  }

  /**
   * `enforceExponentialBounds`: the same hard stops and clamps, a safe zone of
   * [900, 1900] for the target, and quadratic damping otherwise.
   */
  function EnforceExponentialBounds(currentElo: real, proposedChange: real): (r: real)
    ensures currentElo <= MinElo && proposedChange < 0.0 ==> r == 0.0
    ensures currentElo >= MaxElo && proposedChange > 0.0 ==> r == 0.0
    ensures InRange(currentElo) ==> KeepsInRange(currentElo, proposedChange, r)
  {
    if currentElo <= MinElo && proposedChange < 0.0 then 0.0
    else if currentElo >= MaxElo && proposedChange > 0.0 then 0.0
    else
      var targetElo := currentElo + proposedChange;
      if targetElo > MaxElo then MaxElo - currentElo
      else if targetElo < MinElo then MinElo - currentElo
      else if MinElo + ExponentialZone <= targetElo <= MaxElo - ExponentialZone then proposedChange
      else if proposedChange > 0.0 && currentElo > MaxElo - ExponentialZone then
        // here the current rating lies in (1900, 2000)
        Damped(currentElo, proposedChange, QuadraticFactor(currentElo, proposedChange))
      else if proposedChange < 0.0 && currentElo < MinElo + ExponentialZone then
        // here the current rating lies in (800, 900)
        Damped(currentElo, proposedChange, QuadraticFactor(currentElo, proposedChange))
      else Damped(currentElo, proposedChange, 1.0)
  }

  /**
   * The branches of `enforceBounds` one by one: hard stops, exact clamps, the
   * untouched safe zone, and otherwise the change times the linear factor.
   */
  lemma LinearBranches(currentElo: real, proposedChange: real)
    ensures var r := EnforceBounds(currentElo, proposedChange);
            var target := currentElo + proposedChange;
            var stop := (currentElo <= MinElo && proposedChange < 0.0) || (currentElo >= MaxElo && proposedChange > 0.0);
            && (!stop && target > MaxElo ==> r == MaxElo - currentElo)
            && (!stop && target < MinElo ==> r == MinElo - currentElo)
            && (!stop && MinElo + LinearZone <= target <= MaxElo - LinearZone ==> r == proposedChange)
            && (!stop && MinElo <= target <= MaxElo && !(MinElo + LinearZone <= target <= MaxElo - LinearZone) ==>
                  r == proposedChange * LinearFactor(currentElo, proposedChange))
  {
  }

  /**
   * The branches of `enforceExponentialBounds` before the damping: hard stops,
   * exact clamps to the bound, and the untouched [900, 1900] zone; on all of
   * them it agrees with `enforceBounds`.
   */
  lemma ExponentialBranches(currentElo: real, proposedChange: real)
    ensures var r := EnforceExponentialBounds(currentElo, proposedChange);
            var target := currentElo + proposedChange;
            var stop := (currentElo <= MinElo && proposedChange < 0.0) || (currentElo >= MaxElo && proposedChange > 0.0);
            && (stop ==> r == 0.0)
            && (!stop && target > MaxElo ==> r == MaxElo - currentElo)
            && (!stop && target < MinElo ==> r == MinElo - currentElo)
            && (!stop && MinElo + ExponentialZone <= target <= MaxElo - ExponentialZone ==> r == proposedChange)
            && (stop || target > MaxElo || target < MinElo || MinElo + ExponentialZone <= target <= MaxElo - ExponentialZone ==>
                  r == EnforceBounds(currentElo, proposedChange))
  {
  }

  /**
   * Inside the 100-point band, a change heading to the near bound is the
   * change times the quadratic factor; any other change in the band passes
   * unchanged.
   */
  lemma ExponentialDampedBand(currentElo: real, proposedChange: real)
    requires InRange(currentElo)
    requires var target := currentElo + proposedChange;
             MinElo <= target <= MaxElo && !(MinElo + ExponentialZone <= target <= MaxElo - ExponentialZone)
    requires !(currentElo <= MinElo && proposedChange < 0.0) && !(currentElo >= MaxElo && proposedChange > 0.0)
    ensures (proposedChange > 0.0 && currentElo > MaxElo - ExponentialZone) || (proposedChange < 0.0 && currentElo < MinElo + ExponentialZone) ==>
              EnforceExponentialBounds(currentElo, proposedChange) == proposedChange * QuadraticFactor(currentElo, proposedChange)
    ensures !(proposedChange > 0.0 && currentElo > MaxElo - ExponentialZone) && !(proposedChange < 0.0 && currentElo < MinElo + ExponentialZone) ==>
              EnforceExponentialBounds(currentElo, proposedChange) == proposedChange
  {
  }

  /**
   * A zero change is returned as zero from any rating in range, by both
   * variants; below the range the clamp fires instead (799 gives 1).
   */
  lemma ZeroChange(currentElo: real)
    ensures InRange(currentElo) ==> EnforceBounds(currentElo, 0.0) == 0.0
    ensures InRange(currentElo) ==> EnforceExponentialBounds(currentElo, 0.0) == 0.0
    ensures EnforceBounds(799.0, 0.0) == 1.0
  {
  }

  /** With the same positive change, a rating nearer the upper bound is damped harder. */
  lemma DampingStrongerNearerBound(a: real, b: real, change: real)
    requires MaxElo - LinearZone < a <= b < MaxElo
    requires change > 0.0 && b + change <= MaxElo
    ensures 0.0 < EnforceBounds(b, change) <= EnforceBounds(a, change)
  {
    var fa, fb := LinearFactor(a, change), LinearFactor(b, change);
    assert (MaxElo - b) / LinearZone <= (MaxElo - a) / LinearZone;
    assert fb <= fa;
    assert EnforceBounds(a, change) == Damped(a, change, fa);
    assert EnforceBounds(b, change) == Damped(b, change, fb);
    DampedMonotone(a, b, change, fb, fa);
  }

  lemma DampedMonotone(a: real, b: real, change: real, f: real, g: real)
    requires change > 0.0 && 0.0 < f <= g <= 1.0
    ensures 0.0 < Damped(b, change, f) <= Damped(a, change, g)
  {
    assert change * f <= change * g;
    assert 0.0 < change * f;
  }

  /** Within 50 points of a bound, the quadratic factor is at most the linear one. */
  lemma QuadraticAtMostLinear(d: real)
    requires 0.0 <= d <= LinearZone
    ensures Max(ExponentialFloor, Square(d / ExponentialZone)) <= Max(LinearFloor, d / LinearZone)
  {
    SquareBelowHalf(d / ExponentialZone);
  }

  /** The exponential variant never moves a rating in range further than the linear one. */
  lemma ExponentialNoLooserThanLinear(currentElo: real, proposedChange: real)
    requires InRange(currentElo)
    ensures var lin := EnforceBounds(currentElo, proposedChange);
            var exp := EnforceExponentialBounds(currentElo, proposedChange);
            (proposedChange >= 0.0 ==> 0.0 <= exp <= lin) && (proposedChange <= 0.0 ==> lin <= exp <= 0.0)
  {
    var target := currentElo + proposedChange;
    var stop := (currentElo <= MinElo && proposedChange < 0.0) || (currentElo >= MaxElo && proposedChange > 0.0);
    if !stop && MinElo <= target <= MaxElo && !(MinElo + ExponentialZone <= target <= MaxElo - ExponentialZone) {
      var l := LinearFactor(currentElo, proposedChange);
      var lin := if MinElo + LinearZone <= target <= MaxElo - LinearZone then Damped(currentElo, proposedChange, 1.0)
                 else Damped(currentElo, proposedChange, l);
      assert EnforceBounds(currentElo, proposedChange) == lin;
      if proposedChange > 0.0 && currentElo > MaxElo - ExponentialZone {
        var q := QuadraticFactor(currentElo, proposedChange);
        assert EnforceExponentialBounds(currentElo, proposedChange) == Damped(currentElo, proposedChange, q);
        if currentElo > MaxElo - LinearZone {
          QuadraticAtMostLinear(MaxElo - currentElo);
          DampedCompare(currentElo, proposedChange, q, l);
        } else {
          DampedCompare(currentElo, proposedChange, q, 1.0);
        }
      } else if proposedChange < 0.0 && currentElo < MinElo + ExponentialZone {
        var q := QuadraticFactor(currentElo, proposedChange);
        assert EnforceExponentialBounds(currentElo, proposedChange) == Damped(currentElo, proposedChange, q);
        if currentElo < MinElo + LinearZone {
          QuadraticAtMostLinear(currentElo - MinElo);
          DampedCompare(currentElo, proposedChange, q, l);
        } else {
          DampedCompare(currentElo, proposedChange, q, 1.0);
        }
      } else {
        assert EnforceExponentialBounds(currentElo, proposedChange) == Damped(currentElo, proposedChange, 1.0);
      }
    }
  }

  /** A smaller factor moves the rating no further, in either direction. */
  lemma DampedCompare(currentElo: real, change: real, f: real, g: real)
    requires 0.0 < f <= g <= 1.0
    ensures change >= 0.0 ==> 0.0 <= Damped(currentElo, change, f) <= Damped(currentElo, change, g)
    ensures change <= 0.0 ==> Damped(currentElo, change, g) <= Damped(currentElo, change, f) <= 0.0
  {
    if change >= 0.0 {
      assert change * f <= change * g;
    } else {
      assert change * g <= change * f;
    }
  }

  /**
   * The cases that separate the variants: at 1980 with +15 the exponential
   * variant gives strictly less; at 1920 with +20 the linear one passes the
   * whole 20 while the exponential one damps it.
   */
  lemma ExponentialStricterInTestedCases()
    ensures EnforceExponentialBounds(1980.0, 15.0) < EnforceBounds(1980.0, 15.0)
    ensures EnforceBounds(1920.0, 20.0) == 20.0
    ensures EnforceExponentialBounds(1920.0, 20.0) < 20.0
  {
    assert QuadraticFactor(1980.0, 15.0) == 0.05;
    assert LinearFactor(1980.0, 15.0) == 0.4;
    assert QuadraticFactor(1920.0, 20.0) == 0.64;
  }
}
