/**
 * Binary-outcome Elo delta with K-factor 32
 * (src/features/card/logic/elo/calculateEloChange.ts).
 *
 * `Math.pow(10, x)` cannot be computed over `real`; it is a parameter
 * `pow10` of which only the facts the proofs use of the power of ten are
 * assumed (`IsPowerOfTenLike`): it is positive, equal to 1 at 0, strictly
 * increasing, and f(x) * f(-x) == 1.
 */
module EloChange {
  import opened Outcomes

  const KFactor: real := 32.0
  const InvalidScoreMessage: string := "actualScore must be 0 or 1"

  ghost predicate IsPowerOfTenLike(f: real -> real)
  {
    && (forall x :: f(x) > 0.0)
    && f(0.0) == 1.0
    && (forall x, y :: x < y ==> f(x) < f(y))
    && (forall x :: f(x) * f(-x) == 1.0)
  }

  /** The expected score of the user against the sentence. */
  function ExpectedScore(userElo: real, sentenceElo: real, pow10: real -> real): (e: real)
    requires IsPowerOfTenLike(pow10)
    ensures 0.0 < e < 1.0
  {
    var p := pow10((sentenceElo - userElo) / 400.0);
    assert p > 0.0;
    1.0 / (1.0 + p)
  }

  /**
   * `calculateEloChange(userElo, sentenceElo, actualScore)`: rejects every
   * score other than 0 or 1; a win gains strictly between 0 and 32, a loss
   * loses strictly between 0 and 32.
   */
  function CalculateEloChange(userElo: real, sentenceElo: real, actualScore: real, pow10: real -> real): (r: Result<real, string>)
    requires IsPowerOfTenLike(pow10)
    ensures r.Failure? <==> actualScore != 0.0 && actualScore != 1.0
    ensures r.Failure? ==> r.error == InvalidScoreMessage
    ensures actualScore == 1.0 ==> r.Success? && 0.0 < r.value < KFactor
    ensures actualScore == 0.0 ==> r.Success? && -KFactor < r.value < 0.0
  {
    if actualScore != 0.0 && actualScore != 1.0 then
      Failure(InvalidScoreMessage)
    else
      var expected := ExpectedScore(userElo, sentenceElo, pow10);
      Success(KFactor * (actualScore - expected))
  }

  /**
   * The closed forms of the two outcomes: with p = 10^((sentence - user)/400),
   * a win gains 32·p/(1+p) and a loss costs 32/(1+p).
   */
  lemma ChangeClosedForms(userElo: real, sentenceElo: real, pow10: real -> real)
    requires IsPowerOfTenLike(pow10)
    ensures var p := pow10((sentenceElo - userElo) / 400.0);
            && CalculateEloChange(userElo, sentenceElo, 1.0, pow10) == Success(KFactor * p / (1.0 + p))
            && CalculateEloChange(userElo, sentenceElo, 0.0, pow10) == Success(-KFactor / (1.0 + p))
  {
    var p := pow10((sentenceElo - userElo) / 400.0);
    SurpriseClosedForms(p, ExpectedScore(userElo, sentenceElo, pow10));
  }

  lemma SurpriseClosedForms(p: real, e: real)
    requires p > 0.0 && e == 1.0 / (1.0 + p)
    ensures KFactor * (1.0 - e) == KFactor * p / (1.0 + p)
    ensures KFactor * (0.0 - e) == -KFactor / (1.0 + p)
  {
    assert e * (1.0 + p) == 1.0;
    assert (1.0 - e) * (1.0 + p) == p;
    assert 1.0 - e == p / (1.0 + p);
  }

  /** For one pair of ratings, the win change exceeds the loss change by exactly K. */
  lemma WinMinusLossIsK(userElo: real, sentenceElo: real, pow10: real -> real)
    requires IsPowerOfTenLike(pow10)
    ensures CalculateEloChange(userElo, sentenceElo, 1.0, pow10).value
          - CalculateEloChange(userElo, sentenceElo, 0.0, pow10).value == KFactor
  {
  }

  /** Equal ratings: a win gives +16, a loss -16, and they cancel. */
  lemma EqualRatingsSymmetric(elo: real, pow10: real -> real)
    requires IsPowerOfTenLike(pow10)
    ensures CalculateEloChange(elo, elo, 1.0, pow10) == Success(16.0)
    ensures CalculateEloChange(elo, elo, 0.0, pow10) == Success(-16.0)
  {
    assert (elo - elo) / 400.0 == 0.0;
    assert ExpectedScore(elo, elo, pow10) == 0.5;
  }

  /** A stronger sentence makes the expected score strictly smaller. */
  lemma ExpectedDecreasesWithOpponent(userElo: real, weaker: real, stronger: real, pow10: real -> real)
    requires IsPowerOfTenLike(pow10)
    requires weaker < stronger
    ensures ExpectedScore(userElo, stronger, pow10) < ExpectedScore(userElo, weaker, pow10)
  {
    var pw := pow10((weaker - userElo) / 400.0);
    var ps := pow10((stronger - userElo) / 400.0);
    assert (weaker - userElo) / 400.0 < (stronger - userElo) / 400.0;
    assert 0.0 < pw < ps;
    ReciprocalDecreases(1.0 + pw, 1.0 + ps);
  }

  lemma ReciprocalDecreases(a: real, b: real)
    requires 0.0 < a < b
    ensures 1.0 / b < 1.0 / a
  {
    assert 1.0 / a - 1.0 / b == (b - a) / (a * b);
    assert a * b > 0.0;
  }

  /**
   * Against a stronger sentence a win gains strictly more and a loss costs
   * strictly less than against a weaker one.
   */
  lemma StrongerOpponentRewardsMore(userElo: real, weaker: real, stronger: real, pow10: real -> real)
    requires IsPowerOfTenLike(pow10)
    requires weaker < stronger
    ensures CalculateEloChange(userElo, weaker, 1.0, pow10).value < CalculateEloChange(userElo, stronger, 1.0, pow10).value
    ensures CalculateEloChange(userElo, weaker, 0.0, pow10).value < CalculateEloChange(userElo, stronger, 0.0, pow10).value
  {
    ExpectedDecreasesWithOpponent(userElo, weaker, stronger, pow10);
  }

  /**
   * The update is zero-sum: what the user wins against the sentence is what
   * the sentence, scored as losing against the user, would lose.
   */
  lemma ZeroSum(userElo: real, sentenceElo: real, pow10: real -> real)
    requires IsPowerOfTenLike(pow10)
    ensures CalculateEloChange(userElo, sentenceElo, 1.0, pow10).value
         == -CalculateEloChange(sentenceElo, userElo, 0.0, pow10).value
  {
    var x := (sentenceElo - userElo) / 400.0;
    assert (userElo - sentenceElo) / 400.0 == -x;
    ExpectationsSumToOne(pow10(x), pow10(-x));
  }

  /** The expected scores of the two sides, 1/(1+p) and 1/(1+1/p), sum to 1. */
  lemma ExpectationsSumToOne(p: real, q: real)
    requires p > 0.0 && q > 0.0 && p * q == 1.0
    ensures 1.0 / (1.0 + p) + 1.0 / (1.0 + q) == 1.0
  {
    assert 1.0 / (1.0 + q) == p / (p + 1.0) by {
      assert p * (1.0 + q) == p + 1.0;
    }
  }

}
