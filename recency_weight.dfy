/**
 * Time decay of a review's Elo impact
 * (src/features/card/logic/elo/calculateRecencyWeight.ts).
 *
 * A JavaScript `Date` is a whole number of milliseconds or the invalid date
 * (`getTime()` is NaN); `Timestamp` models exactly that.
 */
module RecencyWeight {
  import opened Outcomes

  datatype Timestamp = Instant(ms: int) | InvalidDate

  const MsPerDay: int := 86_400_000
  const DailyDecay: real := 0.95
  const InvalidTimestampMessage: string := "Invalid timestamp provided"

  /** `b` raised to a whole exponent (the only powers the integral variant takes). */
  function Pow(b: real, n: nat): real
  {
    if n == 0 then 1.0 else b * Pow(b, n - 1)
  }

  lemma {:induction false} PowInUnitInterval(b: real, n: nat)
    requires 0.0 < b <= 1.0
    ensures 0.0 < Pow(b, n) <= 1.0
  {
    if n > 0 {
      PowInUnitInterval(b, n - 1);
      assert b * Pow(b, n - 1) <= Pow(b, n - 1);
    }
  }

  /** A base in (0, 1] raised to a larger exponent gives no more. */
  lemma {:induction false} PowNonIncreasing(b: real, m: nat, n: nat)
    requires 0.0 < b <= 1.0
    requires m <= n
    ensures Pow(b, n) <= Pow(b, m)
  {
    if m < n {
      PowNonIncreasing(b, m, n - 1);
      PowInUnitInterval(b, n - 1);
      assert b * Pow(b, n - 1) <= Pow(b, n - 1);
    }
  }

  /** Real division of whole milliseconds, floored, is Euclidean integer division. */
  lemma FloorOfDays(diff: int)
    requires diff >= 0
    ensures ((diff as real) / (MsPerDay as real)).Floor == diff / MsPerDay
  {
    var q, r := diff / MsPerDay, diff % MsPerDay;
    assert diff == q * MsPerDay + r && 0 <= r < MsPerDay;
    var d := MsPerDay as real;
    assert (diff as real) / d == q as real + (r as real) / d;
    assert 0.0 <= (r as real) / d < 1.0;
  }

  /**
   * `calculateRecencyWeight(session, current)`: the invalid date is rejected;
   * a future session or less than 24 h of elapsed time gives 1.0; otherwise
   * 0.95 to the number of whole elapsed days. The weight lies in (0, 1].
   */
  function CalculateRecencyWeight(session: Timestamp, current: Timestamp): (r: Result<real, string>)
    ensures r.Failure? <==> session.InvalidDate? || current.InvalidDate?
    ensures r.Failure? ==> r.error == InvalidTimestampMessage
    ensures r.Success? ==> 0.0 < r.value <= 1.0
    ensures r.Success? && current.ms - session.ms < MsPerDay ==> r.value == 1.0
    ensures r.Success? && current.ms - session.ms >= MsPerDay ==>
              r.value == Pow(DailyDecay, (current.ms - session.ms) / MsPerDay)
  {
    if session.InvalidDate? || current.InvalidDate? then
      Failure(InvalidTimestampMessage)
    else
      var timeDifferenceMs := current.ms - session.ms;
      var daysDifference := (timeDifferenceMs as real) / (MsPerDay as real);
      if daysDifference < 0.0 then Success(1.0)
      else if daysDifference < 1.0 then Success(1.0)
      else
        FloorOfDays(timeDifferenceMs);
        PowInUnitInterval(DailyDecay, daysDifference.Floor);
        Success(Pow(DailyDecay, daysDifference.Floor))
  }

  /** The same instant, one day and seven days: 1.0, 0.95 and 0.95^7. */
  lemma KnownWeights(t: int)
    ensures CalculateRecencyWeight(Instant(t), Instant(t)) == Success(1.0)
    ensures CalculateRecencyWeight(Instant(t - MsPerDay), Instant(t)) == Success(0.95)
    ensures CalculateRecencyWeight(Instant(t - 7 * MsPerDay), Instant(t))
         == Success(0.95 * 0.95 * 0.95 * 0.95 * 0.95 * 0.95 * 0.95)
  {
    assert Pow(0.95, 1) == 0.95;
    assert Pow(0.95, 7) == 0.95 * 0.95 * 0.95 * 0.95 * 0.95 * 0.95 * 0.95;
  }

  /** The longer the time since the session started, the smaller (or equal) the weight. */
  lemma WeightNonIncreasing(session: int, earlier: int, later: int)
    requires earlier <= later
    ensures CalculateRecencyWeight(Instant(session), Instant(later)).value
         <= CalculateRecencyWeight(Instant(session), Instant(earlier)).value
  {
    var e, l := earlier - session, later - session;
    if l >= MsPerDay {
      if e >= MsPerDay {
        assert e / MsPerDay <= l / MsPerDay;
        PowNonIncreasing(DailyDecay, e / MsPerDay, l / MsPerDay);
      }
    }
  }

  /**
   * `calculateGranularRecencyWeight`: the same validation, then 1.0 for a
   * negative difference or one under 0.01 day; otherwise `rpow(days)`, the
   * abstract `Math.pow(0.95, days)` over a fractional number of days.
   */
  function CalculateGranularRecencyWeight(session: Timestamp, current: Timestamp, rpow: real -> real): (r: Result<real, string>)
    ensures r.Failure? <==> session.InvalidDate? || current.InvalidDate?
    ensures r.Failure? ==> r.error == InvalidTimestampMessage
    ensures r.Success? && current.ms - session.ms < 864_000 ==> r.value == 1.0
    ensures r.Success? && current.ms - session.ms >= 864_000 ==>
              r.value == rpow((current.ms - session.ms) as real / (MsPerDay as real))
  {
    if session.InvalidDate? || current.InvalidDate? then
      Failure(InvalidTimestampMessage)
    else
      var timeDifferenceMs := current.ms - session.ms;
      var daysDifference := (timeDifferenceMs as real) / (MsPerDay as real);
      if daysDifference < 0.0 then Success(1.0)
      else if daysDifference < 0.01 then Success(1.0)
      else Success(rpow(daysDifference))
  }

  /**
   * At a whole number of days the two variants agree, provided the fractional
   * power agrees with the whole one there.
   */
  lemma VariantsAgreeOnWholeDays(session: int, days: nat, rpow: real -> real)
    requires rpow(days as real) == Pow(DailyDecay, days)
    ensures CalculateGranularRecencyWeight(Instant(session), Instant(session + days * MsPerDay), rpow)
         == CalculateRecencyWeight(Instant(session), Instant(session + days * MsPerDay))
  {
    WholeDays(days);
  }

  /** A whole number of days in milliseconds divides back to that number, over the reals and the integers. */
  lemma WholeDays(days: nat)
    ensures ((days * MsPerDay) as real) / (MsPerDay as real) == days as real
    ensures (days * MsPerDay) / MsPerDay == days
  {
    var diff := days * MsPerDay;
    assert (diff as real) == (days as real) * (MsPerDay as real);
  }
}
