/**
 * The spaced-repetition update of one card
 * (src/features/card/logic/processCardReview.ts).
 *
 * The ease-factor, interval and due-date rules live in files that are not
 * part of this model; they are the three functions of `Rules`.
 */
module CardReview {
  import opened Outcomes

  /** The scheduling state of a card; `id` stands for the fields the review copies untouched. */
  datatype Card = Card(
    id: string,
    easeFactor: real,
    interval: real,
    repetitions: int,
    nextDueDate: Option<int>,
    lastReviewedAt: Option<int>)

  /** The spread card with its new fields, plus the separate `newDueDate`. */
  datatype ReviewedCard = ReviewedCard(card: Card, newDueDate: int)

  /** `calculateNewEaseFactor`, `calculateNextInterval` and `calculateNextDueDate`. */
  datatype Rules = Rules(
    newEaseFactor: (real, real) -> real,
    nextInterval: (Card, real) -> real,
    nextDueDate: (int, real) -> int)

  const SuccessThreshold: real := 3.0

  predicate IsSuccessful(rating: real)
  {
    rating >= SuccessThreshold
  }

  /**
   * `processCardReview(card, rating, currentTime)`: a rating of 3 or more adds
   * a repetition, a lower one resets the count; ease and interval come from
   * the rules; the due date advances from the card's own due date (or now);
   * the review time is `currentTime` when given, else now; every other field,
   * the old due date included, is copied.
   */
  function ProcessCardReview(card: Card, rating: real, currentTime: Option<int>, now: int, rules: Rules): (r: ReviewedCard)
    ensures IsSuccessful(rating) ==> r.card.repetitions == card.repetitions + 1
    ensures !IsSuccessful(rating) ==> r.card.repetitions == 0
    ensures r.card.easeFactor == rules.newEaseFactor(card.easeFactor, rating)
    ensures r.card.interval == rules.nextInterval(card, rating)
    ensures card.nextDueDate.Some? ==> r.newDueDate == rules.nextDueDate(card.nextDueDate.value, r.card.interval)
    ensures card.nextDueDate.None? ==> r.newDueDate == rules.nextDueDate(now, r.card.interval)
    ensures currentTime.Some? ==> r.card.lastReviewedAt == currentTime
    ensures currentTime.None? ==> r.card.lastReviewedAt == Some(now)
    ensures r.card.id == card.id && r.card.nextDueDate == card.nextDueDate
  {
    var isSuccessful := IsSuccessful(rating);
    var newRepetitions := if isSuccessful then card.repetitions + 1 else 0;
    var newEaseFactor := rules.newEaseFactor(card.easeFactor, rating);
    var newInterval := rules.nextInterval(card, rating);
    var currentDueDate := if card.nextDueDate.Some? then card.nextDueDate.value else now;
    var newDueDate := rules.nextDueDate(currentDueDate, newInterval);
    var reviewTime := if currentTime.Some? then currentTime.value else now;
    ReviewedCard(
      card.(easeFactor := newEaseFactor, interval := newInterval, repetitions := newRepetitions,
            lastReviewedAt := Some(reviewTime)),
      newDueDate)
  }

  /** The card after a series of reviews, oldest rating first. */
  function ReviewAll(card: Card, ratings: seq<real>, now: int, rules: Rules): Card
  {
    if ratings == [] then card
    else ProcessCardReview(ReviewAll(card, ratings[..|ratings| - 1], now, rules), ratings[|ratings| - 1], None, now, rules).card
  }

  /** The number of successful ratings at the end of a series. */
  function TrailingSuccesses(ratings: seq<real>): (n: nat)
    ensures n <= |ratings|
  {
    if ratings == [] || !IsSuccessful(ratings[|ratings| - 1]) then 0
    else 1 + TrailingSuccesses(ratings[..|ratings| - 1])
  }

  /**
   * After a series of reviews the repetition count is the length of the
   * final run of successes, added to the old count when no review failed.
   */
  lemma {:induction false} RepetitionsCountFinalRun(card: Card, ratings: seq<real>, now: int, rules: Rules)
    ensures TrailingSuccesses(ratings) == |ratings| ==>
              ReviewAll(card, ratings, now, rules).repetitions == card.repetitions + |ratings|
    ensures TrailingSuccesses(ratings) < |ratings| ==>
              ReviewAll(card, ratings, now, rules).repetitions == TrailingSuccesses(ratings)
  {
    if ratings != [] {
      RepetitionsCountFinalRun(card, ratings[..|ratings| - 1], now, rules);
    }
  }

  /** Reviewing never changes which card it is or its stored due date. */
  lemma {:induction false} ReviewAllKeepsIdentity(card: Card, ratings: seq<real>, now: int, rules: Rules)
    ensures ReviewAll(card, ratings, now, rules).id == card.id
    ensures ReviewAll(card, ratings, now, rules).nextDueDate == card.nextDueDate
  {
    if ratings != [] {
      ReviewAllKeepsIdentity(card, ratings[..|ratings| - 1], now, rules);
    }
  }
}
