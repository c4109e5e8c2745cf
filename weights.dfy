/** The interaction weights and the two sums that both pre-save hooks build from the raw counters. */
module Weights {

  const LikeWeight: real := 1.0
  const RepostWeight: real := 2.0
  const CommentWeight: real := 3.0
  const ViewWeight: real := 0.1

  /** The interaction count that both engagement rates are a percentage of:
      likes once, reposts twice, comments three times, and no view term. */
  function TotalEngagement(likes: int, reposts: int, comments: int): int {
    likes + reposts * 2 + comments * 3
  }

  /** The weighted engagement that both engagement scores are normalised from. */
  function WeightedEngagement(views: int, likes: int, reposts: int, comments: int): real {
    likes as real * LikeWeight + reposts as real * RepostWeight
      + comments as real * CommentWeight + views as real * ViewWeight
  }

  /** The weighted engagement is the interaction count plus a tenth of the views:
      the real weights of the score agree with the integer factors of the rate. */
  lemma WeightedIsTotalPlusViews(views: int, likes: int, reposts: int, comments: int)
    ensures WeightedEngagement(views, likes, reposts, comments)
            == TotalEngagement(likes, reposts, comments) as real + views as real / 10.0
  {
  }

  /** Non-negative counters give a non-negative interaction count and weighted engagement. */
  lemma NonNegativeCounters(views: int, likes: int, reposts: int, comments: int)
    requires views >= 0 && likes >= 0 && reposts >= 0 && comments >= 0
    ensures TotalEngagement(likes, reposts, comments) >= 0
    ensures WeightedEngagement(views, likes, reposts, comments) >= 0.0
  {
  }

  /** Raising any counter never lowers the weighted engagement. */
  lemma WeightedMonotone(views: int, likes: int, reposts: int, comments: int,
                         views': int, likes': int, reposts': int, comments': int)
    requires views <= views' && likes <= likes' && reposts <= reposts' && comments <= comments'
    ensures WeightedEngagement(views, likes, reposts, comments)
            <= WeightedEngagement(views', likes', reposts', comments')
  {
  }
}
