/** How the two pre-save hooks relate when they are given the same counters.
    The route.ts hook takes the rate against followerCount and divides the follower-less
    score by 10; the Content.ts hook takes the rate against views and always divides by 100. */
module Variants {
  import opened Js
  import ApiRoute
  import ContentModel

  /** The route.ts view of a Content.ts document that also carries a follower count. */
  function WithFollowers(c: ContentModel.Counters, followerCount: Option<int>): (r: ApiRoute.Raw)
    ensures ApiRoute.Total(r) == ContentModel.Total(c)
    ensures ApiRoute.Weighted(r) == ContentModel.Weighted(c)
  {
    ApiRoute.Raw(Some(c.views), Some(c.likes), Some(c.reposts), Some(c.comments), followerCount)
  }

  /** The two rates share their numerator: they agree exactly when the follower count equals the views. */
  lemma RatesAgreeOnEqualDenominators(c: ContentModel.Counters)
    requires c.views > 0
    ensures ApiRoute.FollowerRate(WithFollowers(c, Some(c.views))) == ContentModel.ViewRate(c)
  {
  }

  /** With no follower count, the route.ts score is ten times the Content.ts score
      as long as neither reaches the clamp (a weighted engagement of at most 1000). */
  lemma FollowerlessScoreIsTenfold(c: ContentModel.Counters)
    requires ContentModel.Weighted(c) <= 1000.0
    ensures ApiRoute.AudienceScore(WithFollowers(c, None)) == 10.0 * ContentModel.FixedScore(c)
  {
  }

  /** With no follower count and a non-negative weighted engagement, the route.ts score
      is never below the Content.ts score. */
  lemma FollowerlessScoreDominates(c: ContentModel.Counters, followerCount: Option<int>)
    requires !IsPositive(followerCount)
    requires ContentModel.Weighted(c) >= 0.0
    ensures ApiRoute.AudienceScore(WithFollowers(c, followerCount)) >= ContentModel.FixedScore(c)
  {
  }

  /** The variants disagree on both fields for one and the same document: 50 views, 10 likes,
      no reposts, no comments and no follower count. */
  lemma VariantsDisagree()
    ensures ApiRoute.AudienceScore(WithFollowers(ContentModel.Counters(50, 10, 0, 0), None)) == 1.5
    ensures ContentModel.FixedScore(ContentModel.Counters(50, 10, 0, 0)) == 0.15
    ensures ApiRoute.FollowerRate(WithFollowers(ContentModel.Counters(50, 10, 0, 0), None)) == 0.0
    ensures ContentModel.ViewRate(ContentModel.Counters(50, 10, 0, 0)) == 20.0
  {
  }
}
