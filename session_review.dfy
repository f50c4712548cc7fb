/**
 * The session orchestrator (src/features/card/services/sessionReviewService.ts).
 *
 * The three database tables become fields of `SessionStore`: `sessions` and
 * `logs` are sequences whose indices are the row ids (rows are only ever
 * appended), `users` is a map keyed by user id. Each exported call is one
 * atomic method; the current time is a parameter.
 */
module SessionReview {
  import opened Outcomes
  import EloChange
  import StreakMultiplier
  import RecencyWeight
  import Bounds

  type UserId = string
  type CardId = string

  datatype Status = Active | Completed

  datatype Session = Session(
    userId: UserId,
    startingElo: real,
    endingElo: Option<real>,
    startTimestamp: int,
    endTimestamp: Option<int>,
    status: Status)

  datatype ReviewLog = ReviewLog(
    cardId: CardId,
    userId: UserId,
    sessionId: nat,
    rating: real,
    streakPosition: nat,
    eloImpact: real,
    reviewDate: int)

  datatype User = User(currentElo: real, lastSessionTimestamp: Option<int>)

  /** The tagged errors of the service; `Thrown` carries the message of an exception caught by the service. */
  datatype ServiceError = SessionNotFound | UserNotFound | ActiveSessionExists | InsufficientReviews | Thrown(message: string)

  /** What `addReviewToSession` returns on success. */
  datatype Receipt = Receipt(reviewId: nat, streakPosition: nat, eloImpact: real, sessionEndingElo: real)

  /** What `startNewSession` returns on success. */
  datatype NewSession = NewSession(id: nat, startingElo: real, endingElo: real)

  /** What `getCurrentSessionSummary` returns for an active session. */
  datatype SessionSummary = SessionSummary(id: nat, startingElo: real, endingElo: Option<real>, reviewCount: nat)

  /** The unbounded impact stored in the log and the session's next ending rating. */
  datatype Scored = Scored(eloImpact: real, newEndingElo: real)

  /** How many of the most recent reviews the streak scan reads. */
  const StreakWindow: nat := 10
  const CorrectRating: real := 5.0

  // ---------------------------------------------------------------------------
  // Queries over the tables

  /** The active session `sessionId`, if it belongs to `userId`. */
  function FindSession(sessions: seq<Session>, sessionId: nat, userId: UserId): (r: Option<Session>)
    ensures r.Some? <==> sessionId < |sessions| && sessions[sessionId].userId == userId && sessions[sessionId].status == Active
    ensures r.Some? ==> r.value == sessions[sessionId]
  {
    if sessionId < |sessions| && sessions[sessionId].userId == userId && sessions[sessionId].status == Active
    then Some(sessions[sessionId]) else None
  }

  /** The first active session of `userId`, if there is one. */
  function FindActive(sessions: seq<Session>, userId: UserId): (r: Option<nat>)
    ensures r.Some? ==> r.value < |sessions| && sessions[r.value].userId == userId && sessions[r.value].status == Active
    ensures r.None? ==> forall i :: 0 <= i < |sessions| ==> !(sessions[i].userId == userId && sessions[i].status == Active)
    ensures r.Some? ==> forall i :: 0 <= i < r.value ==> !(sessions[i].userId == userId && sessions[i].status == Active)
  {
    if sessions == [] then None
    else
      var last := |sessions| - 1;
      var earlier := FindActive(sessions[..last], userId);
      if earlier.Some? then earlier
      else if sessions[last].userId == userId && sessions[last].status == Active then Some(last)
      else None
  }

  /** The ratings of a session's logs, oldest first, one per log. */
  function SessionRatings(logs: seq<ReviewLog>, sessionId: nat): seq<real>
  {
    if logs == [] then []
    else (if logs[0].sessionId == sessionId then [logs[0].rating] else []) + SessionRatings(logs[1..], sessionId)
  }

  lemma {:induction false} SessionRatingsAppend(logs: seq<ReviewLog>, l: ReviewLog, sessionId: nat)
    ensures SessionRatings(logs + [l], sessionId)
         == SessionRatings(logs, sessionId) + (if l.sessionId == sessionId then [l.rating] else [])
  {
    if logs != [] {
      assert (logs + [l])[1..] == logs[1..] + [l];
      SessionRatingsAppend(logs[1..], l, sessionId);
    }
  }

  function Reversed(s: seq<real>): (r: seq<real>)
    ensures |r| == |s|
    ensures forall i :: 0 <= i < |s| ==> r[i] == s[|s| - 1 - i]
  {
    if s == [] then [] else Reversed(s[1..]) + [s[0]]
  }

  lemma ReversedAppend(s: seq<real>, x: real)
    ensures Reversed(s + [x]) == [x] + Reversed(s)
  {
    var r, t := Reversed(s + [x]), [x] + Reversed(s);
    assert |r| == |t| && forall i :: 0 <= i < |r| ==> r[i] == t[i];
  }

  lemma PrefixCons(x: real, a: seq<real>, b: seq<real>)
    requires |a| <= |b| && a == b[..|a|]
    ensures [x] + a == ([x] + b)[..|a| + 1]
  {
  }

  /** The number of review logs of a session (`_count.CardReviewLog`): one per rating of the session. */
  function ReviewCount(logs: seq<ReviewLog>, sessionId: nat): (n: nat)
    ensures n <= |logs|
    ensures n == |SessionRatings(logs, sessionId)|
  {
    if logs == [] then 0
    else
      var earlier := logs[..|logs| - 1];
      assert logs == earlier + [logs[|logs| - 1]];
      SessionRatingsAppend(earlier, logs[|logs| - 1], sessionId);
      ReviewCount(earlier, sessionId) + (if logs[|logs| - 1].sessionId == sessionId then 1 else 0)
  }

  function MinNat(a: nat, b: nat): nat
  {
    if a <= b then a else b
  }

  /**
   * The ratings of the at most `limit` most recent reviews of a session,
   * newest first: later rows of `logs` are more recent.
   */
  function RecentRatings(logs: seq<ReviewLog>, sessionId: nat, limit: nat): (r: seq<real>)
    ensures |r| <= limit
    ensures forall x :: x in r ==> exists l :: l in logs && l.sessionId == sessionId && l.rating == x
  {
    if logs == [] || limit == 0 then []
    else
      var last := logs[|logs| - 1];
      var earlier := logs[..|logs| - 1];
      if last.sessionId == sessionId then [last.rating] + RecentRatings(earlier, sessionId, limit - 1)
      else RecentRatings(earlier, sessionId, limit)
  }

  /** The streak scan reads min(limit, count) ratings: all of the session's, up to the limit. */
  lemma {:induction false} RecentRatingsLength(logs: seq<ReviewLog>, sessionId: nat, limit: nat)
    ensures |RecentRatings(logs, sessionId, limit)| == MinNat(limit, ReviewCount(logs, sessionId))
  {
    if logs != [] && limit != 0 {
      var earlier := logs[..|logs| - 1];
      if logs[|logs| - 1].sessionId == sessionId {
        RecentRatingsLength(earlier, sessionId, limit - 1);
      } else {
        RecentRatingsLength(earlier, sessionId, limit);
      }
    }
  }

  /**
   * The recent ratings are a prefix of the session's ratings taken newest
   * first: the k-th is the rating of the session's (k+1)-th newest log.
   */
  lemma {:induction false} RecentRatingsNewestFirst(logs: seq<ReviewLog>, sessionId: nat, limit: nat)
    ensures var r := RecentRatings(logs, sessionId, limit);
            var newestFirst := Reversed(SessionRatings(logs, sessionId));
            |r| <= |newestFirst| && r == newestFirst[..|r|]
  {
    if logs != [] && limit != 0 {
      var last := logs[|logs| - 1];
      var earlier := logs[..|logs| - 1];
      assert logs == earlier + [last];
      SessionRatingsAppend(earlier, last, sessionId);
      if last.sessionId == sessionId {
        RecentRatingsNewestFirst(earlier, sessionId, limit - 1);
        var older := SessionRatings(earlier, sessionId);
        ReversedAppend(older, last.rating);
        PrefixCons(last.rating, RecentRatings(earlier, sessionId, limit - 1), Reversed(older));
      } else {
        RecentRatingsNewestFirst(earlier, sessionId, limit);
      }
    }
  }

  /** Appending a log adds one to its session's count and leaves every other count alone. */
  lemma ReviewCountAppend(logs: seq<ReviewLog>, l: ReviewLog)
    ensures ReviewCount(logs + [l], l.sessionId) == ReviewCount(logs, l.sessionId) + 1
    ensures forall other: nat :: other != l.sessionId ==> ReviewCount(logs + [l], other) == ReviewCount(logs, other)
  {
    assert (logs + [l])[..|logs|] == logs;
  }

  // ---------------------------------------------------------------------------
  // The streak and the Elo arithmetic (lines 72-104 of the service)

  /** The length of the run of correct (5) ratings at the head of `ratings`. */
  function LeadingFives(ratings: seq<real>): (n: nat)
    ensures n <= |ratings|
    ensures forall i :: 0 <= i < n ==> ratings[i] == CorrectRating
    ensures n < |ratings| ==> ratings[n] != CorrectRating
  {
    if ratings == [] || ratings[0] != CorrectRating then 0 else 1 + LeadingFives(ratings[1..])
  }

  /** The `for ... break` loop counting the current streak over the newest-first ratings. */
  method CountStreak(recent: seq<real>) returns (currentStreak: nat)
    ensures currentStreak <= |recent|
    ensures forall i :: 0 <= i < currentStreak ==> recent[i] == CorrectRating
    ensures currentStreak < |recent| ==> recent[currentStreak] != CorrectRating
  {
    currentStreak := 0;
    for i := 0 to |recent|
      invariant currentStreak == i
      invariant forall k :: 0 <= k < i ==> recent[k] == CorrectRating
    {
      if recent[i] == CorrectRating {
        currentStreak := currentStreak + 1;
      } else {
        break;
      }
    }
  }

  /** Two runs that satisfy the streak's contract are the same run. */
  lemma StreakIsUnique(ratings: seq<real>, n: nat)
    requires n <= |ratings|
    requires forall i :: 0 <= i < n ==> ratings[i] == CorrectRating
    requires n < |ratings| ==> ratings[n] != CorrectRating
    ensures n == LeadingFives(ratings)
  {
  }

  /** The streak position recorded for this review. */
  function NewStreakPosition(rating: real, currentStreak: nat): (p: nat)
    ensures rating == CorrectRating ==> p == currentStreak + 1
    ensures rating != CorrectRating ==> p == 0
  {
    if rating == CorrectRating then currentStreak + 1 else 0
  }

  /** `endingUserElo || startingUserElo`: a missing or zero ending rating falls back to the starting one. */
  function CurrentSessionElo(s: Session): (e: real)
    ensures s.endingElo.Some? && s.endingElo.value != 0.0 ==> e == s.endingElo.value
    ensures s.endingElo.None? || s.endingElo.value == 0.0 ==> e == s.startingElo
  {
    match s.endingElo
    case Some(v) => if v != 0.0 then v else s.startingElo
    case None => s.startingElo
  }

  /** A product of a base change, a multiplier in (0, 1.2] and a weight in (0, 1]. */
  lemma ImpactBounds(base: real, multiplier: real, weight: real)
    requires 0.0 < multiplier <= 1.2 && 0.0 < weight <= 1.0
    ensures base > 0.0 ==> 0.0 < base * multiplier * weight <= base * 1.2
    ensures base < 0.0 ==> base * 1.2 <= base * multiplier * weight < 0.0
  {
    var m := base * multiplier;
    if base > 0.0 {
      assert 0.0 < m <= base * 1.2;
      assert 0.0 < m * weight <= m;
    } else if base < 0.0 {
      assert base * 1.2 <= m < 0.0;
      assert m <= m * weight < 0.0;
    }
  }

  /**
   * Lines 85-104: the base change from `calculateEloChange` with the raw
   * rating, times the streak multiplier and the recency weight, then bounded.
   * Only the ratings 0 and 1 get through; a 1 raises the session rating, a 0
   * lowers it, and the next rating stays in [800, 2000] if the current one is.
   */
  function ScoreReview(currentElo: real, sentenceElo: real, rating: real, streakPosition: nat,
                       sessionStart: int, now: int, pow10: real -> real): (r: Result<Scored, string>)
    requires EloChange.IsPowerOfTenLike(pow10)
    ensures r.Failure? <==> rating != 0.0 && rating != 1.0
    ensures r.Failure? ==> r.error == EloChange.InvalidScoreMessage
    ensures r.Success? ==> -38.4 < r.value.eloImpact < 38.4
    ensures rating == 1.0 ==> r.Success? && r.value.eloImpact > 0.0
    ensures rating == 0.0 ==> r.Success? && r.value.eloImpact < 0.0
    ensures r.Success? ==> r.value.newEndingElo == currentElo + Bounds.EnforceBounds(currentElo, r.value.eloImpact)
    ensures r.Success? && Bounds.InRange(currentElo) ==> Bounds.InRange(r.value.newEndingElo)
  {
    match EloChange.CalculateEloChange(currentElo, sentenceElo, rating, pow10)
    case Failure(e) => Failure(e)
    case Success(baseEloChange) =>
      match StreakMultiplier.CalculateStreakMultiplier(streakPosition as real)
      case Failure(e) => Failure(e)
      case Success(streakMultiplier) =>
        match RecencyWeight.CalculateRecencyWeight(RecencyWeight.Instant(sessionStart), RecencyWeight.Instant(now))
        case Failure(e) => Failure(e)
        case Success(recencyWeight) =>
          ImpactBounds(baseEloChange, streakMultiplier, recencyWeight);
          var reviewEloImpact := baseEloChange * streakMultiplier * recencyWeight;
          var boundedEloChange := Bounds.EnforceBounds(currentElo, reviewEloImpact);
          Success(Scored(reviewEloImpact, currentElo + boundedEloChange))
  }

  /**
   * The rating a correct answer arrives with (5) is not a score
   * `calculateEloChange` accepts, so scoring it raises the exception.
   */
  lemma CorrectAnswerIsRejected(currentElo: real, sentenceElo: real, streakPosition: nat,
                                sessionStart: int, now: int, pow10: real -> real)
    requires EloChange.IsPowerOfTenLike(pow10)
    ensures ScoreReview(currentElo, sentenceElo, CorrectRating, streakPosition, sessionStart, now, pow10)
         == Failure("actualScore must be 0 or 1")
  {
  }

  /** The score `calculateEloChange` expects for a review rating: 5 is a win, 0 a loss. */
  function NormalizedScore(rating: real): (score: real)
    ensures rating == CorrectRating ==> score == 1.0
    ensures rating == 0.0 ==> score == 0.0
  {
    if rating == CorrectRating then 1.0 else if rating == 0.0 then 0.0 else rating
  }

  /**
   * The review scoring with the rating normalised first: a correct answer
   * (5) raises the session rating and an incorrect one (0) lowers it, and the
   * result stays in [800, 2000].
   */
  function ScoreNormalizedReview(currentElo: real, sentenceElo: real, rating: real, streakPosition: nat,
                                 sessionStart: int, now: int, pow10: real -> real): (r: Result<Scored, string>)
    requires EloChange.IsPowerOfTenLike(pow10)
    ensures rating == CorrectRating ==> r.Success? && r.value.eloImpact > 0.0
    ensures rating == 0.0 ==> r.Success? && r.value.eloImpact < 0.0
    ensures r.Success? && Bounds.InRange(currentElo) ==> Bounds.InRange(r.value.newEndingElo)
  {
    ScoreReview(currentElo, sentenceElo, NormalizedScore(rating), streakPosition, sessionStart, now, pow10)
  }

  /**
   * Once correct answers get through, the streak bonus is live: from the
   * third correct answer in a row on, a same-day review's impact is 1.2 times
   * the base change.
   */
  lemma NormalizedStreakBonus(currentElo: real, sentenceElo: real, streakPosition: nat,
                              sessionStart: int, now: int, pow10: real -> real)
    requires EloChange.IsPowerOfTenLike(pow10)
    requires streakPosition >= 3 && sessionStart <= now < sessionStart + RecencyWeight.MsPerDay
    ensures ScoreNormalizedReview(currentElo, sentenceElo, CorrectRating, streakPosition, sessionStart, now, pow10).value.eloImpact
         == EloChange.CalculateEloChange(currentElo, sentenceElo, 1.0, pow10).value * 1.2
  {
    assert (streakPosition as real).Floor == streakPosition;
  }

  /**
   * When every stored rating is a 0 or a 1 (all that `AddReviewToSession`
   * ever stores), the current streak is always 0.
   */
  lemma StreakAlwaysZero(logs: seq<ReviewLog>, sessionId: nat)
    requires LogsBinary(logs)
    ensures LeadingFives(RecentRatings(logs, sessionId, StreakWindow)) == 0
  {
    var recent := RecentRatings(logs, sessionId, StreakWindow);
    if recent != [] {
      assert recent[0] in recent;
      var l :| l in logs && l.sessionId == sessionId && l.rating == recent[0];
      var i :| 0 <= i < |logs| && logs[i] == l;
      assert recent[0] != CorrectRating;
    }
  }

  // ---------------------------------------------------------------------------
  // Table invariants

  /** At most one active session per user. */
  ghost predicate AtMostOneActive(sessions: seq<Session>)
  {
    forall i, j :: 0 <= i < j < |sessions| && sessions[i].status == Active && sessions[j].status == Active
      ==> sessions[i].userId != sessions[j].userId
  }

  /** Every stored rating lies in [800, 2000]. */
  ghost predicate TablesInRange(sessions: seq<Session>, users: map<UserId, User>)
  {
    && (forall u :: u in users ==> Bounds.InRange(users[u].currentElo))
    && (forall i :: 0 <= i < |sessions| ==> Bounds.InRange(sessions[i].startingElo))
    && (forall i :: 0 <= i < |sessions| && sessions[i].endingElo.Some? ==> Bounds.InRange(sessions[i].endingElo.value))
  }

  /** Every logged rating is a 0 or a 1. */
  ghost predicate LogsBinary(logs: seq<ReviewLog>)
  {
    forall i :: 0 <= i < |logs| ==> logs[i].rating == 0.0 || logs[i].rating == 1.0
  }

  class SessionStore {
    var sessions: seq<Session>
    var logs: seq<ReviewLog>
    var users: map<UserId, User>
    /** `ELO_SYSTEM.DEFAULT_ELO`, the sentence rating when none is given. */
    const defaultElo: real
    /** `SESSION_SYSTEM.MINIMUM_REVIEWS`. */
    const minimumReviews: nat
    /** `x => Math.pow(10, x)`. */
    const pow10: real -> real

    ghost predicate Valid()
      reads this
    {
      && EloChange.IsPowerOfTenLike(pow10)
      && (forall i :: 0 <= i < |sessions| ==> sessions[i].userId in users && sessions[i].endingElo.Some?)
      && (forall i :: 0 <= i < |logs| ==> logs[i].sessionId < |sessions|)
      && AtMostOneActive(sessions)
    }

    constructor (users: map<UserId, User>, defaultElo: real, minimumReviews: nat, pow10: real -> real)
      requires EloChange.IsPowerOfTenLike(pow10)
      ensures Valid()
      ensures this.users == users && sessions == [] && logs == []
      ensures this.defaultElo == defaultElo && this.minimumReviews == minimumReviews && this.pow10 == pow10
    {
      this.users := users;
      this.sessions := [];
      this.logs := [];
      this.defaultElo := defaultElo;
      this.minimumReviews := minimumReviews;
      this.pow10 := pow10;
    }

    /**
     * `getCurrentSessionSummary(userId)`: the user's active session with its
     * review count, or none; it never creates a session.
     */
    function CurrentSessionSummary(userId: UserId): (r: Option<SessionSummary>)
      reads this
      ensures r.None? <==> forall i :: 0 <= i < |sessions| ==> !(sessions[i].userId == userId && sessions[i].status == Active)
      ensures r.Some? ==> var id := r.value.id;
        && id < |sessions| && sessions[id].userId == userId && sessions[id].status == Active
        && r.value.startingElo == sessions[id].startingElo
        && r.value.endingElo == sessions[id].endingElo
        && r.value.reviewCount == ReviewCount(logs, id)
    {
      match FindActive(sessions, userId)
      case None => None
      case Some(id) => Some(SessionSummary(id, sessions[id].startingElo, sessions[id].endingElo, ReviewCount(logs, id)))
    }

    /**
     * `startNewSession(userId)`: fails for an unknown user or one with an
     * active session; otherwise opens an active session whose starting and
     * ending ratings are the user's current rating.
     */
    method StartNewSession(userId: UserId, now: int) returns (r: Result<NewSession, ServiceError>)
      requires Valid()
      modifies this
      ensures Valid()
      ensures logs == old(logs) && users == old(users)
      ensures userId !in users ==> r == Failure(UserNotFound) && sessions == old(sessions)
      ensures userId in users && FindActive(old(sessions), userId).Some? ==>
                r == Failure(ActiveSessionExists) && sessions == old(sessions)
      ensures userId in users && FindActive(old(sessions), userId).None? ==>
                var elo := users[userId].currentElo;
                && sessions == old(sessions) + [Session(userId, elo, Some(elo), now, None, Active)]
                && r == Success(NewSession(|old(sessions)|, elo, elo))
      ensures r.Success? ==> FindActive(sessions, userId) == Some(r.value.id)
      ensures TablesInRange(old(sessions), old(users)) ==> TablesInRange(sessions, users)
    {
      if userId !in users {
        return Failure(UserNotFound);
      }
      var user := users[userId];
      if FindActive(sessions, userId).Some? {
        return Failure(ActiveSessionExists);
      }
      var id := |sessions|;
      sessions := sessions + [Session(userId, user.currentElo, Some(user.currentElo), now, None, Active)];
      r := Success(NewSession(id, user.currentElo, user.currentElo));
      assert FindActive(sessions[..id], userId).None?;
    }

    /**
     * The transaction of lines 107-134: append the review log and move the
     * session's ending rating, both or neither.
     */
    method RecordReview(sessionId: nat, cardId: CardId, userId: UserId, rating: real,
                        position: nat, scored: Scored, now: int) returns (receipt: Receipt)
      requires Valid() && sessionId < |sessions|
      modifies this
      ensures Valid()
      ensures users == old(users)
      ensures receipt == Receipt(|old(logs)|, position, scored.eloImpact, scored.newEndingElo)
      ensures logs == old(logs) + [ReviewLog(cardId, userId, sessionId, rating, position, scored.eloImpact, now)]
      ensures sessions == old(sessions)[sessionId := old(sessions)[sessionId].(endingElo := Some(scored.newEndingElo))]
      ensures ReviewCount(logs, sessionId) == ReviewCount(old(logs), sessionId) + 1
      ensures forall other: nat :: other != sessionId ==> ReviewCount(logs, other) == ReviewCount(old(logs), other)
      ensures LogsBinary(old(logs)) && (rating == 0.0 || rating == 1.0) ==> LogsBinary(logs)
      ensures TablesInRange(old(sessions), old(users)) && Bounds.InRange(scored.newEndingElo) ==> TablesInRange(sessions, users)
    {
      var reviewId := |logs|;
      logs := logs + [ReviewLog(cardId, userId, sessionId, rating, position, scored.eloImpact, now)];
      ReviewCountAppend(old(logs), logs[reviewId]);
      sessions := sessions[sessionId := sessions[sessionId].(endingElo := Some(scored.newEndingElo))];
      receipt := Receipt(reviewId, position, scored.eloImpact, scored.newEndingElo);
    }

    /**
     * `addReviewToSession`: finds the active session, counts the streak over
     * its ten newest logs, scores the review and, atomically, appends the log
     * and moves the session's ending rating. Any failure writes nothing.
     */
    method AddReviewToSession(sessionId: nat, cardId: CardId, userId: UserId, rating: real,
                              sentenceElo: Option<real>, now: int) returns (r: Result<Receipt, ServiceError>)
      requires Valid()
      modifies this
      ensures Valid()
      ensures users == old(users)
      ensures FindSession(old(sessions), sessionId, userId).None? ==>
                r == Failure(SessionNotFound) && sessions == old(sessions) && logs == old(logs)
      ensures FindSession(old(sessions), sessionId, userId).Some? ==>
                var s := old(sessions)[sessionId];
                var position := NewStreakPosition(rating, LeadingFives(RecentRatings(old(logs), sessionId, StreakWindow)));
                var scored := ScoreReview(CurrentSessionElo(s), if sentenceElo.Some? then sentenceElo.value else defaultElo,
                                          rating, position, s.startTimestamp, now, pow10);
                && (scored.Failure? ==>
                      r == Failure(Thrown(scored.error)) && sessions == old(sessions) && logs == old(logs))
                && (scored.Success? ==>
                      && r == Success(Receipt(|old(logs)|, position, scored.value.eloImpact, scored.value.newEndingElo))
                      && logs == old(logs) + [ReviewLog(cardId, userId, sessionId, rating, position, scored.value.eloImpact, now)]
                      && sessions == old(sessions)[sessionId := s.(endingElo := Some(scored.value.newEndingElo))])
      ensures rating != 0.0 && rating != 1.0 ==> r.Failure? && sessions == old(sessions) && logs == old(logs)
      ensures r.Success? ==> r.value.streakPosition == 0
      ensures r.Success? ==> ReviewCount(logs, sessionId) == ReviewCount(old(logs), sessionId) + 1
      ensures r.Failure? ==> ReviewCount(logs, sessionId) == ReviewCount(old(logs), sessionId)
      ensures forall other: nat :: other != sessionId ==> ReviewCount(logs, other) == ReviewCount(old(logs), other)
      ensures LogsBinary(old(logs)) ==> LogsBinary(logs)
      ensures TablesInRange(old(sessions), old(users)) ==> TablesInRange(sessions, users)
    {
      var found := FindSession(sessions, sessionId, userId);
      if found.None? {
        return Failure(SessionNotFound);
      }
      var session := found.value;

      var recent := RecentRatings(logs, sessionId, StreakWindow);
      var currentStreak := CountStreak(recent);
      StreakIsUnique(recent, currentStreak);
      var newStreakPosition := NewStreakPosition(rating, currentStreak);

      var currentSessionElo := CurrentSessionElo(session);
      var sentence := if sentenceElo.Some? then sentenceElo.value else defaultElo;
      var scored := ScoreReview(currentSessionElo, sentence, rating, newStreakPosition, session.startTimestamp, now, pow10);
      if scored.Failure? {
        return Failure(Thrown(scored.error));
      }

      var receipt := RecordReview(sessionId, cardId, userId, rating, newStreakPosition, scored.value, now);
      r := Success(receipt);
    }

    /**
     * `addReviewToSession` with the rating normalised before scoring (5 is a
     * win, 0 a loss): a correct answer is now recorded, extends the streak
     * by one and raises the session rating.
     */
    method AddNormalizedReviewToSession(sessionId: nat, cardId: CardId, userId: UserId, rating: real,
                                        sentenceElo: Option<real>, now: int) returns (r: Result<Receipt, ServiceError>)
      requires Valid()
      modifies this
      ensures Valid()
      ensures users == old(users)
      ensures FindSession(old(sessions), sessionId, userId).None? ==>
                r == Failure(SessionNotFound) && sessions == old(sessions) && logs == old(logs)
      ensures FindSession(old(sessions), sessionId, userId).Some? ==>
                var s := old(sessions)[sessionId];
                var position := NewStreakPosition(rating, LeadingFives(RecentRatings(old(logs), sessionId, StreakWindow)));
                var scored := ScoreNormalizedReview(CurrentSessionElo(s), if sentenceElo.Some? then sentenceElo.value else defaultElo,
                                                    rating, position, s.startTimestamp, now, pow10);
                && (scored.Failure? ==>
                      r == Failure(Thrown(scored.error)) && sessions == old(sessions) && logs == old(logs))
                && (scored.Success? ==>
                      && r == Success(Receipt(|old(logs)|, position, scored.value.eloImpact, scored.value.newEndingElo))
                      && logs == old(logs) + [ReviewLog(cardId, userId, sessionId, rating, position, scored.value.eloImpact, now)]
                      && sessions == old(sessions)[sessionId := s.(endingElo := Some(scored.value.newEndingElo))])
      ensures FindSession(old(sessions), sessionId, userId).Some? && rating == CorrectRating ==>
                && r.Success?
                && r.value.streakPosition == LeadingFives(RecentRatings(old(logs), sessionId, StreakWindow)) + 1
                && r.value.eloImpact > 0.0
      ensures r.Success? ==> ReviewCount(logs, sessionId) == ReviewCount(old(logs), sessionId) + 1
      ensures r.Failure? ==> ReviewCount(logs, sessionId) == ReviewCount(old(logs), sessionId)
      ensures forall other: nat :: other != sessionId ==> ReviewCount(logs, other) == ReviewCount(old(logs), other)
      ensures TablesInRange(old(sessions), old(users)) ==> TablesInRange(sessions, users)
    {
      var found := FindSession(sessions, sessionId, userId);
      if found.None? {
        return Failure(SessionNotFound);
      }
      var session := found.value;

      var recent := RecentRatings(logs, sessionId, StreakWindow);
      var currentStreak := CountStreak(recent);
      StreakIsUnique(recent, currentStreak);
      var newStreakPosition := NewStreakPosition(rating, currentStreak);

      var currentSessionElo := CurrentSessionElo(session);
      var sentence := if sentenceElo.Some? then sentenceElo.value else defaultElo;
      var scored := ScoreNormalizedReview(currentSessionElo, sentence, rating, newStreakPosition, session.startTimestamp, now, pow10);
      if scored.Failure? {
        return Failure(Thrown(scored.error));
      }

      var receipt := RecordReview(sessionId, cardId, userId, rating, newStreakPosition, scored.value, now);
      r := Success(receipt);
    }

    /**
     * `finalizeSessionWithElo`: fails for a missing or completed session and
     * for one with fewer than `minimumReviews` logs; otherwise completes it
     * and copies its ending rating to the user.
     */
    method FinalizeSessionWithElo(sessionId: nat, userId: UserId, now: int) returns (r: Result<real, ServiceError>)
      requires Valid()
      modifies this
      ensures Valid()
      ensures logs == old(logs)
      ensures FindSession(old(sessions), sessionId, userId).None? ==>
                r == Failure(SessionNotFound) && sessions == old(sessions) && users == old(users)
      ensures FindSession(old(sessions), sessionId, userId).Some? && ReviewCount(logs, sessionId) < minimumReviews ==>
                r == Failure(InsufficientReviews) && sessions == old(sessions) && users == old(users)
      ensures FindSession(old(sessions), sessionId, userId).Some? && ReviewCount(logs, sessionId) >= minimumReviews ==>
                var s := old(sessions)[sessionId];
                var finalElo := s.endingElo.value;
                && r == Success(finalElo)
                && sessions == old(sessions)[sessionId := s.(status := Completed, endTimestamp := Some(now))]
                && users == old(users)[userId := old(users)[userId].(currentElo := finalElo, lastSessionTimestamp := Some(now))]
      ensures r.Success? ==> FindActive(sessions, userId).None?
      ensures TablesInRange(old(sessions), old(users)) ==> TablesInRange(sessions, users)
    {
      var found := FindSession(sessions, sessionId, userId);
      if found.None? {
        return Failure(SessionNotFound);
      }
      var session := found.value;
      if ReviewCount(logs, sessionId) < minimumReviews {
        return Failure(InsufficientReviews);
      }
      var finalElo := session.endingElo.value;
      sessions := sessions[sessionId := session.(status := Completed, endTimestamp := Some(now))];
      users := users[userId := users[userId].(currentElo := finalElo, lastSessionTimestamp := Some(now))];
      r := Success(finalElo);
    }
  }

  /**
   * Once a session is started, a second start for the same user is refused
   * until that session is finalised.
   */
  method SecondStartRefused(store: SessionStore, userId: UserId, now: int)
      returns (first: Result<NewSession, ServiceError>, second: Result<NewSession, ServiceError>)
    requires store.Valid()
    modifies store
    ensures store.Valid()
    ensures first.Success? ==> second == Failure(ActiveSessionExists)
  {
    first := store.StartNewSession(userId, now);
    second := store.StartNewSession(userId, now);
  }

  /**
   * Finalising a user's session frees the user to start the next one, which
   * opens at the rating the finalised session ended with.
   */
  method RestartAfterFinalize(store: SessionStore, sessionId: nat, userId: UserId, now: int)
      returns (finalized: Result<real, ServiceError>, restarted: Result<NewSession, ServiceError>)
    requires store.Valid()
    modifies store
    ensures store.Valid()
    ensures finalized.Success? ==> restarted.Success? && restarted.value.startingElo == finalized.value
  {
    finalized := store.FinalizeSessionWithElo(sessionId, userId, now);
    restarted := store.StartNewSession(userId, now);
  }
}
