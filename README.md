# FalaGym session Elo — a Dafny model

FalaGym is a language-learning app. A learner reviews sentence cards inside
a practice *session*. Every review moves the session's Elo rating. Finalising
the session copies that rating to the learner's profile. This project models
the rating core of that flow and proves properties about it:

- `EloChange`: the binary-outcome Elo delta with K-factor 32.
- `StreakMultiplier`: the flat streak multiplier (1.0, or 1.2 from a streak position of 3 on) and its progressive variant.
- `RecencyWeight`: the daily 0.95 decay by elapsed whole days, and the granular variant.
- `Bounds`: keeping a rating inside [800, 2000], with linear damping (within 50 points of a bound) and with quadratic damping (within 100 points).
- `SessionReview`: the session orchestrator, as a class `SessionStore`.
  - Its three tables (sessions, review logs, users) are fields.
  - Each exported call is one atomic method. The current time is a parameter.
  - The review pipeline is: streak scan over the ten newest logs, base change, multiplier, weight, bounds, write.
- `CardReview`: the spaced-repetition update of one card. The ease, interval and due-date rules are parameters.
- `Language`: case-insensitive comparison of language codes.
- `Outcomes`: `Option` and `Result`.

Exceptions become `Result.Failure` carrying the exact message. The service's
error strings become the `ServiceError` constructors.

`Math.pow(10, x)` is a function parameter `pow10`. Of the power of ten, only
four facts are required of it (`EloChange.IsPowerOfTenLike`):

- it is positive;
- it equals 1 at 0;
- it is strictly increasing;
- `f(x) * f(-x) == 1`.

The power of 0.95 over a whole number of days is computed exactly (`RecencyWeight.Pow`).

Rating a correct answer fails. The answer buttons send the rating 0 or 5
(src/app/sentence/page.tsx:163 and 178), and
`addReviewToSession` passes that raw rating to `calculateEloChange`, which
accepts only 0 and 1. So reviewing a correct answer throws inside the service
and writes nothing. The streak bonus can therefore never fire.

- `SessionStore.AddReviewToSession` models this as written.
- `SessionStore.AddNormalizedReviewToSession` is the corrected pipeline (see "## Findings").

## Model

| member | source | states |
|---|---|---|
| EloChange.ExpectedScore | src/features/card/logic/elo/calculateEloChange.ts:21 | the expected score lies strictly between 0 and 1 |
| EloChange.CalculateEloChange | src/features/card/logic/elo/calculateEloChange.ts:10-26 | fails with "actualScore must be 0 or 1" exactly when the score is neither 0 nor 1; a win gains strictly between 0 and 32, a loss loses strictly between 0 and 32 |
| EloChange.ChangeClosedForms | src/features/card/logic/elo/calculateEloChange.ts:19-23 | with p = 10^((sentence−user)/400), a win gains exactly 32·p/(1+p) and a loss costs exactly 32/(1+p) |
| EloChange.WinMinusLossIsK | src/features/card/logic/elo/calculateEloChange.ts:23 | for one pair of ratings the win change minus the loss change is exactly K = 32 |
| EloChange.EqualRatingsSymmetric | src/features/card/logic/elo/calculateEloChange.ts:21-23 | equal ratings give +16 for a win and −16 for a loss |
| EloChange.ExpectedDecreasesWithOpponent | src/features/card/logic/elo/calculateEloChange.ts:21 | a stronger sentence strictly lowers the expected score |
| EloChange.StrongerOpponentRewardsMore | src/features/card/logic/elo/calculateEloChange.ts:21-23 | against a stronger sentence a win gains strictly more and a loss costs strictly less |
| EloChange.ZeroSum | src/features/card/logic/elo/calculateEloChange.ts:21-23 | what the user wins against the sentence equals what the sentence, losing against the user, would lose |
| StreakMultiplier.CalculateStreakMultiplier | src/features/card/logic/elo/calculateStreakMultiplier.ts:8-22 | fails with "streakPosition must be non-negative" exactly for a negative position; 1.0 if and only if the floored position is below 3, 1.2 if and only if it is 3 or more |
| StreakMultiplier.CalculateProgressiveStreakMultiplier | src/features/card/logic/elo/calculateStreakMultiplier.ts:29-49 | the same guard; 1.0 below 3; from 3 on a value in [1.2, 1.5] |
| StreakMultiplier.FlatIsMonotone | src/features/card/logic/elo/calculateStreakMultiplier.ts:13-22 | the flat multiplier is 1.0 or 1.2 and never decreases as the position grows |
| StreakMultiplier.FlatPlateau | src/features/card/logic/elo/calculateStreakMultiplier.ts:13-22 | every position of 3 or more gives exactly 1.2; 2.9 floors to 2 and gives 1.0 |
| StreakMultiplier.ProgressiveSteps | src/features/card/logic/elo/calculateStreakMultiplier.ts:36-48 | positions 3, 4, 5 give 1.2, 1.25, 1.3; every position of 9 or more gives the 1.5 cap |
| StreakMultiplier.ProgressiveIsMonotone | src/features/card/logic/elo/calculateStreakMultiplier.ts:36-48 | the progressive multiplier never decreases as the position grows |
| StreakMultiplier.ProgressiveDominatesFlat | src/features/card/logic/elo/calculateStreakMultiplier.ts:36-48 | the progressive variant is never below the flat one and equals it up to position 3 |
| RecencyWeight.PowInUnitInterval | src/features/card/logic/elo/calculateRecencyWeight.ts:39 | a base in (0, 1] to any whole power stays in (0, 1] |
| RecencyWeight.PowNonIncreasing | src/features/card/logic/elo/calculateRecencyWeight.ts:39 | a base in (0, 1] to a larger power gives no more |
| RecencyWeight.FloorOfDays | src/features/card/logic/elo/calculateRecencyWeight.ts:29-39 | the floored real number of days equals the integer division of the milliseconds by 86 400 000 |
| RecencyWeight.CalculateRecencyWeight | src/features/card/logic/elo/calculateRecencyWeight.ts:10-41 | fails with "Invalid timestamp provided" exactly when a date is invalid; the weight lies in (0, 1]; under 24 h (or negative) gives 1.0; otherwise 0.95 to the number of whole elapsed days |
| RecencyWeight.KnownWeights | src/features/card/logic/elo/calculateRecencyWeight.ts:27-39 | the same instant gives 1.0, one day gives 0.95, seven days give 0.95^7 |
| RecencyWeight.WeightNonIncreasing | src/features/card/logic/elo/calculateRecencyWeight.ts:27-39 | a later current time never gives a larger weight |
| RecencyWeight.CalculateGranularRecencyWeight | src/features/card/logic/elo/calculateRecencyWeight.ts:48-81 | the same validation; under 0.01 day (or negative) gives 1.0; otherwise the power of 0.95 at the fractional number of days |
| RecencyWeight.VariantsAgreeOnWholeDays | src/features/card/logic/elo/calculateRecencyWeight.ts:66-78 | at a whole number of days the granular and the integral weights agree |
| Bounds.Damped | src/features/card/logic/elo/enforceBounds.ts:56-58 | a change scaled by a factor in (0, 1] from and to ratings in range keeps its sign, does not grow and stays in range |
| Bounds.LinearFactor | src/features/card/logic/elo/enforceBounds.ts:42-54 | the linear factor lies in (0, 1]: max(0.1, distance/50) near the bound the change heads to, 1 elsewhere |
| Bounds.EnforceBounds | src/features/card/logic/elo/enforceBounds.ts:9-59 | hard stop at 0 at a reached bound; from a rating in [800, 2000] the result keeps the change's sign, is no larger, and lands in [800, 2000] |
| Bounds.LinearBranches | src/features/card/logic/elo/enforceBounds.ts:17-58 | exact clamp to the bound on overshoot, the change itself for a target in [850, 1950], otherwise the change times the linear factor |
| Bounds.QuadraticFactor | src/features/card/logic/elo/enforceBounds.ts:98-112 | the quadratic factor lies in (0, 1] and is max(0.05, (distance/100)²) near the bound the change heads to |
| Bounds.EnforceExponentialBounds | src/features/card/logic/elo/enforceBounds.ts:65-118 | the same hard stops; from a rating in [800, 2000] the result keeps the sign, is no larger, and lands in [800, 2000] |
| Bounds.ExponentialBranches | src/features/card/logic/elo/enforceBounds.ts:73-96 | hard stops give 0, an overshoot is clamped exactly to the bound, a target in [900, 1900] passes unchanged; on all of these the exponential variant equals the linear one |
| Bounds.ExponentialDampedBand | src/features/card/logic/elo/enforceBounds.ts:98-117 | for a rating in range and a target inside the 100-point band, a change heading to the near bound becomes the change times the quadratic factor, and any other change passes unchanged |
| Bounds.ZeroChange | src/features/card/logic/elo/enforceBounds.ts:19-40 | a zero change stays zero from any rating in range under both variants; from 799 the clamp returns 1 |
| Bounds.DampingStrongerNearerBound | src/features/card/logic/elo/enforceBounds.ts:44-48 | for the same rise, a rating nearer 2000 is allowed no more than one further from it |
| Bounds.QuadraticAtMostLinear | src/features/card/logic/elo/enforceBounds.ts:100-105 | within 50 points of a bound the quadratic factor is at most the linear one |
| Bounds.ExponentialNoLooserThanLinear | src/features/card/logic/elo/enforceBounds.ts:65-118 | from any rating in range the exponential variant moves the rating no further than the linear one, in either direction |
| Bounds.ExponentialStricterInTestedCases | src/features/card/logic/elo/enforceBounds.ts:98-115 | at 1980 (+15) the exponential variant gives strictly less; at 1920 (+20) the linear passes 20 and the exponential damps it |
| SessionReview.FindSession | src/features/card/services/sessionReviewService.ts:35-69 | a session is found exactly when the id exists, belongs to the user and is ACTIVE |
| SessionReview.FindActive | src/features/card/services/sessionReviewService.ts:199-213 | returns an ACTIVE session of the user, or none exactly when the user has none |
| SessionReview.ReviewCount | src/features/card/services/sessionReviewService.ts:46-50 | the session's log count is the number of its ratings, one per log of that session |
| SessionReview.RecentRatings | src/features/card/services/sessionReviewService.ts:52-60 | at most the limit of ratings, each taken from a log of that session |
| SessionReview.RecentRatingsLength | src/features/card/services/sessionReviewService.ts:52-60 | the scan reads exactly min(limit, count) ratings: all of the session's, up to the limit |
| SessionReview.RecentRatingsNewestFirst | src/features/card/services/sessionReviewService.ts:52-60 | the k-th recent rating is the rating of the session's (k+1)-th newest log: a prefix of the session's ratings, one per log, taken newest first |
| SessionReview.LeadingFives | src/features/card/services/sessionReviewService.ts:72-80 | the length of the run of 5s at the head: all before it are 5, the next is not |
| SessionReview.CountStreak | src/features/card/services/sessionReviewService.ts:72-80 | the loop with its break returns the length of the leading run of 5s |
| SessionReview.NewStreakPosition | src/features/card/services/sessionReviewService.ts:82 | a 5 extends the streak by one, any other rating resets it to 0 |
| SessionReview.CurrentSessionElo | src/features/card/services/sessionReviewService.ts:85 | the ending rating, or the starting one when the ending rating is missing or 0 |
| SessionReview.ImpactBounds | src/features/card/services/sessionReviewService.ts:100 | base × multiplier × weight keeps the base's sign and is at most 1.2 times its size |
| SessionReview.ScoreReview | src/features/card/services/sessionReviewService.ts:85-104 | fails with the score error exactly for ratings other than 0 and 1; impact in (−38.4, 38.4), positive for 1, negative for 0; the new ending rating adds the bounded impact and stays in [800, 2000] |
| SessionReview.CorrectAnswerIsRejected | src/features/card/services/sessionReviewService.ts:87-91 | scoring the rating 5 fails with "actualScore must be 0 or 1" |
| SessionReview.NormalizedScore | src/features/card/services/sessionReviewService.ts:87-91 | maps the rating 5 to a win (1) and 0 to a loss (0) |
| SessionReview.ScoreNormalizedReview | src/features/card/services/sessionReviewService.ts:87-104 | with normalisation a 5 raises and a 0 lowers the session rating, and the rating stays in [800, 2000] |
| SessionReview.NormalizedStreakBonus | src/features/card/services/sessionReviewService.ts:93-100 | with normalisation, from streak position 3 on a same-day correct answer's impact is exactly 1.2 times the base change |
| SessionReview.StreakAlwaysZero | src/features/card/services/sessionReviewService.ts:72-82 | when the logs hold only 0 and 1 ratings, the current streak is always 0 |
| SessionReview.SessionStore.CurrentSessionSummary | src/features/card/services/sessionReviewService.ts:149-179 | none exactly when the user has no ACTIVE session; otherwise that session's id, ratings and review count |
| SessionReview.SessionStore.StartNewSession | src/features/card/services/sessionReviewService.ts:181-241 | "user-not-found" or "active-session-exists" with nothing written; otherwise appends an ACTIVE session starting and ending at the user's rating, which becomes the user's active session; at most one ACTIVE session per user is kept |
| SessionReview.SessionStore.RecordReview | src/features/card/services/sessionReviewService.ts:107-134 | the transaction appends exactly the new log and moves exactly that session's ending rating; the session's review count grows by one and no other count changes |
| SessionReview.SessionStore.AddReviewToSession | src/features/card/services/sessionReviewService.ts:26-147 | "session-not-found" or the thrown message with nothing written; otherwise appends the log, so the session's review count grows by one and no other session's count changes, and moves the session's ending rating, as the pipeline computes; ratings other than 0 and 1 always fail; every recorded streak position is 0; ratings stay in range |
| SessionReview.SessionStore.AddNormalizedReviewToSession | src/features/card/services/sessionReviewService.ts:71-134 | the same writes and review counts with normalised scoring; a 5 on a found session succeeds, extends the streak by one and has positive impact |
| SessionReview.SessionStore.FinalizeSessionWithElo | src/features/card/services/sessionReviewService.ts:243-315 | "session-not-found", or "insufficient-reviews" below the minimum, with nothing written; otherwise completes the session and copies its ending rating and the time to the user, leaving the user no ACTIVE session |
| SessionReview.SecondStartRefused | src/features/card/services/sessionReviewService.ts:199-213 | right after a successful start, a second start for the same user is refused with "active-session-exists" |
| SessionReview.RestartAfterFinalize | src/features/card/services/sessionReviewService.ts:281-302 | after a successful finalise the user can start again, at the finalised rating |
| CardReview.ProcessCardReview | src/features/card/logic/processCardReview.ts:6-32 | a rating of 3 or more adds a repetition and a lower one resets to 0; ease, interval and due date come from the rules, the due date advancing from the card's own or the current date; the review time is the given one or now; the stored due date and the other fields are copied |
| CardReview.RepetitionsCountFinalRun | src/features/card/logic/processCardReview.ts:7-8 | after a series of reviews the repetition count is the final run of successes, added to the old count when none failed |
| CardReview.ReviewAllKeepsIdentity | src/features/card/logic/processCardReview.ts:24-31 | a series of reviews keeps the card's identity and stored due date |
| Language.IsSameLanguage | src/utils/language/isSameLanguage.ts:1-9 | false when either code is missing or empty; otherwise true exactly when the lower-cased codes are equal |
| Language.IsSameLanguageSymmetric | src/utils/language/isSameLanguage.ts:5-8 | the comparison is symmetric |
| Language.LowerAbsorbsCase | src/utils/language/isSameLanguage.ts:8 | lower-casing an upper- or lower-cased code gives the code's lower-case form |
| Language.MatchesOwnCases | src/utils/language/isSameLanguage.ts:5-8 | a non-empty code matches itself and its upper- and lower-cased forms |
| Language.IsSameLanguageTransitive | src/utils/language/isSameLanguage.ts:8 | two codes that match a third match each other |

## Left out

- Numbers are exact reals, not IEEE-754 doubles, so rounding, NaN and infinities in ratings are not modelled.
- EloChange.CalculateEloChange: `Math.pow(10, x)` is the parameter `pow10`, constrained only by `IsPowerOfTenLike`. So the bounds are proved for every such function, and no exact floating-point value is stated.
- RecencyWeight.CalculateGranularRecencyWeight: `Math.pow(0.95, days)` at a fractional number of days is the parameter `rpow`. So the contract does not state that this weight lies in (0, 1].
- RecencyWeight.CalculateRecencyWeight: a timestamp is a whole number of milliseconds or the invalid date. The limits of the JavaScript date range and fractional millisecond inputs are not modelled.
- Prisma becomes the store's fields.
  - A lookup by id is an index into `sessions`.
  - "Newest first" by `reviewDate` is reverse order of appending, so ties between equal review dates are not modelled.
  - `reviewDate` and `startTimestamp` are the `now` of the call that wrote them.
- SessionReview.FindActive: `findFirst` without an order returns some matching row. The model returns the lowest id. The two agree whenever the store's invariant of at most one ACTIVE session per user holds.
- SessionReview.SessionStore.StartNewSession: the source checks for an active session and creates one in separate, non-transactional steps. Concurrent calls can race and create two ACTIVE sessions. The model runs each call atomically, so that race is not modelled.
- SessionReview.SessionStore.AddReviewToSession: only exceptions thrown by the Elo pipeline are modelled (`Thrown`). Database failures and the "internal-server-error" fallback for non-`Error` values are not.
- SessionReview.SessionStore.CurrentSessionSummary: its catch branch only reports database failures, which are not modelled.
- The error logging to the console in every catch branch is left out.
- `ELO_SYSTEM.DEFAULT_ELO` and `SESSION_SYSTEM.MINIMUM_REVIEWS` come from src/constants/elo.ts, which is not part of this model. They are the store's constructor parameters `defaultElo` and `minimumReviews`.
- Ids are natural-number row indices instead of database-generated strings.
- `finalizeSessionWithElo` asserts that the ending rating is non-null (`endingUserElo!`). The model proves it from the store invariant that every session has an ending rating, which `startNewSession` sets.
- CardReview.ProcessCardReview: `calculateNewEaseFactor`, `calculateNextInterval` and `calculateNextDueDate` live in files that are not part of this model. They are the three functions of `CardReview.Rules`, so nothing is stated about ease or interval values.
- CardReview.ProcessCardReview: a `Date` and a millisecond number are both an `int` of milliseconds, and "now" is a parameter.
- Language.IsSameLanguage: `toLowerCase` is modelled on the ASCII letters only. Unicode case mapping is not modelled.
- Language.LowerAbsorbsCase and Language.MatchesOwnCases hold for the ASCII case mapping of the model. Under JavaScript's full Unicode mapping they can fail: `"ß".toUpperCase()` is `"SS"`, so `isSameLanguage("ß", "ß".toUpperCase())` is false. Language codes are ASCII, where the two mappings agree.
- The API route, the React pages and components, audio generation, storage and card generation are outside the rating core and not modelled.

## Findings

| source | as written | input that shows it | evidently intended | confidence | as-written member | corrected member |
|---|---|---|---|---|---|---|
| src/features/card/services/sessionReviewService.ts:87-91 | the raw review rating is passed as `actualScore`, but `calculateEloChange` accepts only 0 and 1 (src/features/card/logic/elo/calculateEloChange.ts:15-17) | rating 5, which is a correct answer: the service returns the error "actualScore must be 0 or 1", writes no log and leaves the session rating unchanged | map 5 to a win and 0 to a loss before scoring, so a correct answer raises the rating and builds the streak | high, not executed | SessionReview.CorrectAnswerIsRejected | SessionReview.ScoreNormalizedReview |

`SessionReview.StreakAlwaysZero` shows a consequence of the defect. Only 0 and 1 ratings are ever stored, so the streak scan always finds 0 and the 1.2 multiplier never applies. The corrected `SessionStore.AddNormalizedReviewToSession` and `SessionReview.NormalizedStreakBonus` show the streak working once the rating is normalised.
