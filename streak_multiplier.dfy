/**
 * Streak multipliers (src/features/card/logic/elo/calculateStreakMultiplier.ts):
 * the flat plateau used by the session pipeline and the progressive variant.
 * The position is a JavaScript number, so it is a `real` floored on entry.
 */
module StreakMultiplier {
  import opened Outcomes

  const NegativeStreakMessage: string := "streakPosition must be non-negative"
  const StreakStart: int := 3
  const BaseStreakMultiplier: real := 1.2

  function Min(a: real, b: real): real
  {
    if a <= b then a else b
  }

  /** `calculateStreakMultiplier`: 1.0 below a floored position of 3, 1.2 from 3 on. */
  function CalculateStreakMultiplier(streakPosition: real): (r: Result<real, string>)
    ensures r.Failure? <==> streakPosition < 0.0
    ensures r.Failure? ==> r.error == NegativeStreakMessage
    ensures r.Success? ==> (r.value == 1.0 <==> streakPosition.Floor < 3)
    ensures r.Success? ==> (r.value == 1.2 <==> streakPosition.Floor >= 3)
  {
    if streakPosition < 0.0 then
      Failure(NegativeStreakMessage)
    else
      var position := streakPosition.Floor;
      if position < StreakStart then Success(1.0) else Success(BaseStreakMultiplier)
  }

  /**
   * `calculateProgressiveStreakMultiplier`: 1.0 below 3, then 1.2 plus 0.05
   * per position above 3, with the bonus capped at 0.3.
   */
  function CalculateProgressiveStreakMultiplier(streakPosition: real): (r: Result<real, string>)
    ensures r.Failure? <==> streakPosition < 0.0
    ensures r.Failure? ==> r.error == NegativeStreakMessage
    ensures r.Success? && streakPosition.Floor < 3 ==> r.value == 1.0
    ensures r.Success? && streakPosition.Floor >= 3 ==> 1.2 <= r.value <= 1.5
  {
    if streakPosition < 0.0 then
      Failure(NegativeStreakMessage)
    else
      var position := streakPosition.Floor;
      if position < StreakStart then Success(1.0)
      else Success(BaseStreakMultiplier + Min(0.05 * (position - 3) as real, 0.3))
  }

  /** The flat multiplier only ever yields 1.0 or 1.2, and never decreases. */
  lemma FlatIsMonotone(p: real, q: real)
    requires 0.0 <= p <= q
    ensures CalculateStreakMultiplier(p).value <= CalculateStreakMultiplier(q).value
    ensures CalculateStreakMultiplier(p).value in {1.0, 1.2}
  {
    assert p.Floor <= q.Floor;
  }

  /** Every position of 3 or more, however large, gives exactly 1.2; 2.9 still gives 1.0. */
  lemma FlatPlateau(p: real)
    requires p >= 3.0
    ensures CalculateStreakMultiplier(p) == Success(1.2)
    ensures CalculateStreakMultiplier(2.9) == Success(1.0)
  {
    assert p.Floor >= 3;
    assert (2.9).Floor == 2;
  }

  /** Progressive: positions 3, 4, 5 give 1.2, 1.25, 1.3; from position 9 on, exactly 1.5. */
  lemma ProgressiveSteps(p: real)
    requires p >= 9.0
    ensures CalculateProgressiveStreakMultiplier(3.0) == Success(1.2)
    ensures CalculateProgressiveStreakMultiplier(4.0) == Success(1.25)
    ensures CalculateProgressiveStreakMultiplier(5.0) == Success(1.3)
    ensures CalculateProgressiveStreakMultiplier(p) == Success(1.5)
  {
    assert (3.0).Floor == 3 && (4.0).Floor == 4 && (5.0).Floor == 5;
    assert p.Floor >= 9;
  }

  /** The progressive variant is non-decreasing in the position. */
  lemma ProgressiveIsMonotone(p: real, q: real)
    requires 0.0 <= p <= q
    ensures CalculateProgressiveStreakMultiplier(p).value <= CalculateProgressiveStreakMultiplier(q).value
  {
    assert p.Floor <= q.Floor;
  }

  /**
   * The progressive variant agrees with the flat one for floored positions
   * up to 3 and is never smaller.
   */
  lemma ProgressiveDominatesFlat(p: real)
    requires p >= 0.0
    ensures CalculateProgressiveStreakMultiplier(p).value >= CalculateStreakMultiplier(p).value
    ensures p.Floor <= 3 ==> CalculateProgressiveStreakMultiplier(p) == CalculateStreakMultiplier(p)
  {
  }
}
