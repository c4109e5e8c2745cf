# Engagement metrics of the content store, in Dafny

The content store saves one document per marketing post. Each document has an `engagement`
sub-document with raw counters: views, likes, reposts, comments and, in one schema, a follower count.
Just before a document is saved, a Mongoose pre-save hook writes two derived fields onto that
sub-document. `engagementRate` is a percentage. `engagementScore` is a score clamped above at 100.

The repository declares the hook twice, with different formulas. This project models both, one
module per source file:

- `ApiRoute` models `src/app/api/route.ts:43-78`. Counters may be absent and are read through `|| 0`.
  The rate is the interaction count (likes + 2·reposts + 3·comments) as a percentage of `followerCount`.
  It is 0 when `followerCount` is absent, 0 or negative. The score is the weighted engagement
  (the interaction count + 0.1·views) per follower times 1000. Without followers it is the weighted
  engagement divided by 10. Both cases are clamped at 100.
- `ContentModel` models `src/models/Content.ts:42-104`. Absent counters take the schema default 0.
  The rate is the same interaction count as a percentage of `views`, and 0 when views are not positive.
  The score is always the weighted engagement divided by 100, clamped at 100.
- `Weights` holds the weights 1, 2, 3 and 0.1 and the two sums that both files compute.
- `Js` holds `Math.min` and the JavaScript truthiness test `x && x > 0`.
- `Variants` relates the two hooks on the same counters.

Each hook is a method `PreSave` of a class `EngagementDoc` whose fields are the sub-document's
fields. It assigns only `engagementRate` and `engagementScore` (its `modifies` clause names only
those two). Its postcondition gives their new values as the pure functions `FollowerRate`/`AudienceScore`
or `ViewRate`/`FixedScore` of the unchanged counters. So a caller-supplied rate or score is always
overwritten, and saving twice gives what saving once gives (`SaveTwice`). The lemmas are about those
functions. Counters are `int`. The derived values are `real`, so the arithmetic is exact.

Without a follower count, the route.ts score divides the weighted engagement by 10
(`src/app/api/route.ts:72-75`), while the Content.ts score always divides it by 100
(`src/models/Content.ts:100`). The two are not the same fallback: `Variants.FollowerlessScoreIsTenfold`
states the factor of ten between them below the clamp.

## Model

| member | source | states |
|---|---|---|
| `Js.Option.GetOr` | src/app/api/route.ts:48-50 | definition: the logical-or read of a number field with fallback 0 (an absent field reads as 0); with another default, the schema defaults of Content.ts lines 43-66 |
| `Js.IsPositive` | src/app/api/route.ts:47 | the truthiness test `x && x > 0` holds exactly when the field, read with fallback 0, is positive (same test at line 69) |
| `Weights.TotalEngagement` | src/app/api/route.ts:48-50 | definition: likes + 2·reposts + 3·comments, the interaction count of both rates (also Content.ts:77) |
| `Weights.WeightedEngagement` | src/app/api/route.ts:57-66 | definition: likes·1.0 + reposts·2.0 + comments·3.0 + views·0.1, with the weight constants `LikeWeight`, `RepostWeight`, `CommentWeight`, `ViewWeight` of lines 57-60 (also Content.ts:87-96) |
| `Js.Min` | src/app/api/route.ts:71-74 | `Math.min`: the result is at most each argument and equals one of them |
| `Weights.WeightedIsTotalPlusViews` | src/app/api/route.ts:48-66 | the score's weighted engagement is the rate's interaction count plus a tenth of the views |
| `Weights.NonNegativeCounters` | src/models/Content.ts:77-96 | non-negative counters give a non-negative interaction count and weighted engagement |
| `Weights.WeightedMonotone` | src/models/Content.ts:92-96 | raising any counter never lowers the weighted engagement |
| `ApiRoute.FollowerRate` | src/app/api/route.ts:46-54 | rate is exactly 0 when followerCount is absent or ≤ 0; otherwise rate · followers = (likes + 2·reposts + 3·comments) · 100, absent counters read as 0 |
| `ApiRoute.AudienceScore` | src/app/api/route.ts:56-75 | score ≤ 100; with followers it is the smaller of 100 and weighted/followers·1000; without followers the smaller of 100 and weighted/10 |
| `ApiRoute.RateIgnoresViews` | src/app/api/route.ts:48-51 | changing only the views never changes the rate |
| `ApiRoute.AbsentCountersReadAsZero` | src/app/api/route.ts:47-66 | an absent counter and a counter of 0 give the same rate and score |
| `ApiRoute.ScoreInRange` | src/app/api/route.ts:68-75 | with non-negative counters, 0 ≤ score ≤ 100 |
| `ApiRoute.RateNonNegative` | src/app/api/route.ts:46-54 | with non-negative counters the rate is ≥ 0 |
| `ApiRoute.NegativeCounterGivesNegativeScore` | src/app/api/route.ts:72-75 | the lower bound 0 needs non-negative counters: likes = -1 and nothing else gives a negative score |
| `ApiRoute.ScoreSaturates` | src/app/api/route.ts:69-75 | the score is exactly 100 once weighted·10 ≥ followers, or weighted ≥ 1000 without followers |
| `ApiRoute.ScoreFromRate` | src/app/api/route.ts:47-71 | with followers, score = min(100, 10·rate + 100·views/followers) |
| `ApiRoute.RateAntitoneInFollowers` | src/app/api/route.ts:51 | for a non-negative interaction count, more followers never give a higher rate |
| `ApiRoute.ScoreMonotone` | src/app/api/route.ts:62-75 | with the follower count fixed, raising any counter never lowers the score |
| `ApiRoute.EngagementDoc.constructor` | src/app/api/route.ts:30-38 | a sub-document holds exactly the fields it was given; this schema has no defaults |
| `ApiRoute.EngagementDoc.PreSave` | src/app/api/route.ts:43-78 | counters unchanged; rate := FollowerRate(counters), score := AudienceScore(counters), whatever they held before |
| `ApiRoute.SaveTwice` | src/app/api/route.ts:43-77 | the first run sets rate and score to FollowerRate/AudienceScore of the counters; the second run leaves the document's rate, score and counters as the first left them |
| `ContentModel.WithDefaults` | src/models/Content.ts:42-58 | every absent counter becomes 0; every present one is kept |
| `ContentModel.ViewRate` | src/models/Content.ts:76-84 | rate is 0 when views ≤ 0; otherwise rate · views = (likes + 2·reposts + 3·comments) · 100 |
| `ContentModel.FixedScore` | src/models/Content.ts:86-101 | score is the smaller of 100 and weighted/100, whatever the follower count |
| `ContentModel.ScoreInRange` | src/models/Content.ts:98-101 | with non-negative counters, 0 ≤ score ≤ 100 |
| `ContentModel.RateNonNegative` | src/models/Content.ts:77-84 | with non-negative counters the rate is ≥ 0 |
| `ContentModel.NegativeCounterGivesNegativeScore` | src/models/Content.ts:92-100 | the lower bound 0 needs non-negative counters: likes = -1 gives a negative score |
| `ContentModel.AllZero` | src/models/Content.ts:77-100 | all-zero counters give rate 0 and score 0 |
| `ContentModel.WorkedExample` | src/models/Content.ts:77-100 | likes 10, reposts 5, comments 2, views 100 give rate 26 and score 0.36 |
| `ContentModel.ScoreSaturates` | src/models/Content.ts:100 | the score is exactly 100 once the weighted engagement is ≥ 10000 |
| `ContentModel.ScoreMonotone` | src/models/Content.ts:92-100 | raising any counter never lowers the score |
| `ContentModel.RateScaleInvariant` | src/models/Content.ts:77-81 | multiplying every counter by the same positive factor leaves the rate unchanged |
| `ContentModel.EngagementDoc.constructor` | src/models/Content.ts:42-67 | absent counters, rate and score take the default 0; present ones are kept |
| `ContentModel.EngagementDoc.PreSave` | src/models/Content.ts:73-104 | counters unchanged; rate := ViewRate(counters), score := FixedScore(counters), whatever they held before |
| `ContentModel.SaveTwice` | src/models/Content.ts:73-104 | the first run sets rate and score to ViewRate/FixedScore of the counters; the second run leaves the document's rate, score and counters as the first left them |
| `Variants.WithFollowers` | src/app/api/route.ts:30-38 | a Content.ts document seen by route.ts has the same interaction count and weighted engagement |
| `Variants.RatesAgreeOnEqualDenominators` | src/models/Content.ts:79-81 | when followerCount equals views > 0, the two rates are equal |
| `Variants.FollowerlessScoreIsTenfold` | src/app/api/route.ts:72-75 | without followers and with weighted engagement at most 1000, the route.ts score is 10 × the Content.ts score |
| `Variants.FollowerlessScoreDominates` | src/app/api/route.ts:72-75 | without followers and with non-negative weighted engagement, the route.ts score is ≥ the Content.ts score |
| `Variants.VariantsDisagree` | src/models/Content.ts:80-100 | one document (50 views, 10 likes, no followers) gets rate 0 and score 1.5 from route.ts, rate 20 and score 0.15 from Content.ts |

## Left out

- The HTTP `handler` of `src/app/api/route.ts:83-113` and all of `src/app/api/content/route.ts`: request and response framing and database calls.
- `src/lib/mongodb.ts`: the cached database connection is I/O.
- `src/app/page.tsx`: form rendering. Its `parseInt(...) || 0` and `min="0"` only shape what callers send. The model takes any integers, including negative ones.
- Which of the two schemas Mongoose registers under the name `Content` depends on module load order. Both hooks are modelled, and neither is chosen.
- Schema validation (`required`, `enum`), timestamps and `createdAt`: these are enforced by Mongoose.
- Non-integer counters are not modelled: counters are `int`. A direct post to the API (`src/app/api/route.ts:101`, `new Content(req.body)`) can store a fractional number such as `followerCount: 0.5`.
- IEEE-754 rounding, and `NaN` from non-numeric fields. The arithmetic is exact over `real`.
- A missing engagement sub-document is not modelled; the sub-document is assumed to exist. If it were `undefined`, both hooks would throw a TypeError: Content.ts at the destructuring on line 74, before its `this.engagement` guards at lines 80, 82 and 99, and route.ts at line 47, where `engagement.followerCount` is read. Mongoose always creates nested paths as objects, so the guards are always true and the model leaves them out.
- A field sent explicitly as `null` is not modelled: Mongoose would store `null`, which JavaScript arithmetic reads as 0, the same value an absent field gets.
