/** The pre-save hook of the content schema declared in src/app/api/route.ts.
    Its engagement sub-document has no defaults, so every counter may be absent and is
    read through `|| 0`; the rate is taken against `followerCount`, and the score is
    normalised by the follower count, or divided by 10 when there is none. */
module ApiRoute {
  import opened Js
  import opened Weights

  /** The counters of one engagement sub-document, as the hook reads them. */
  datatype Raw = Raw(views: Option<int>, likes: Option<int>, reposts: Option<int>,
                     comments: Option<int>, followerCount: Option<int>)

  /** The interaction count, with every absent counter read as 0. */
  function Total(c: Raw): int {
    TotalEngagement(c.likes.GetOr(0), c.reposts.GetOr(0), c.comments.GetOr(0))
  }

  /** The weighted engagement, with every absent counter read as 0. */
  function Weighted(c: Raw): real {
    WeightedEngagement(c.views.GetOr(0), c.likes.GetOr(0), c.reposts.GetOr(0), c.comments.GetOr(0))
  }

  /** engagementRate: the interaction count as a percentage of the followers,
      and exactly 0 when followerCount is absent, zero or negative. */
  function FollowerRate(c: Raw): (r: real)
    ensures !IsPositive(c.followerCount) ==> r == 0.0
    ensures IsPositive(c.followerCount) ==>
              r * c.followerCount.value as real == Total(c) as real * 100.0
  {
    if IsPositive(c.followerCount) then
      (Total(c) as real / c.followerCount.value as real) * 100.0
    else
      0.0
  }

  /** engagementScore: the weighted engagement per follower times 1000, or the weighted
      engagement divided by 10 without followers, in both cases clamped above at 100. */
  function AudienceScore(c: Raw): (r: real)
    ensures r <= 100.0
    ensures IsPositive(c.followerCount) ==>
              r * c.followerCount.value as real <= Weighted(c) * 1000.0
              && (r == 100.0 || r * c.followerCount.value as real == Weighted(c) * 1000.0)
    ensures !IsPositive(c.followerCount) ==>
              r * 10.0 <= Weighted(c) && (r == 100.0 || r * 10.0 == Weighted(c))
  {
    if IsPositive(c.followerCount) then
      Min(100.0, (Weighted(c) / c.followerCount.value as real) * 1000.0)
    else
      Min(100.0, Weighted(c) / 10.0)
  }

  /** Every counter of `c` is absent or non-negative (the follower count is not constrained). */
  predicate NonNegative(c: Raw) {
    c.views.GetOr(0) >= 0 && c.likes.GetOr(0) >= 0
      && c.reposts.GetOr(0) >= 0 && c.comments.GetOr(0) >= 0
  }

  /** The rate has no view term: changing only the views leaves it as it was. */
  lemma RateIgnoresViews(c: Raw, views: Option<int>)
    ensures FollowerRate(c.(views := views)) == FollowerRate(c)
  {
  }

  /** An absent counter and a counter of 0 give the same rate and score. */
  lemma AbsentCountersReadAsZero(c: Raw)
    ensures var z := Raw(Some(c.views.GetOr(0)), Some(c.likes.GetOr(0)), Some(c.reposts.GetOr(0)),
                         Some(c.comments.GetOr(0)), c.followerCount);
            FollowerRate(z) == FollowerRate(c) && AudienceScore(z) == AudienceScore(c)
  {
  }

  /** With non-negative counters the score lies in 0..100, as the hook's comments promise. */
  lemma ScoreInRange(c: Raw)
    requires NonNegative(c)
    ensures 0.0 <= AudienceScore(c) <= 100.0
  {
    NonNegativeCounters(c.views.GetOr(0), c.likes.GetOr(0), c.reposts.GetOr(0), c.comments.GetOr(0));
  }

  /** With non-negative counters the rate is never negative; it has no upper bound. */
  lemma RateNonNegative(c: Raw)
    requires NonNegative(c)
    ensures FollowerRate(c) >= 0.0
  {
    NonNegativeCounters(c.views.GetOr(0), c.likes.GetOr(0), c.reposts.GetOr(0), c.comments.GetOr(0));
  }

  /** The lower bound needs non-negative counters: a single like of -1 gives a negative score. */
  lemma NegativeCounterGivesNegativeScore()
    ensures AudienceScore(Raw(None, Some(-1), None, None, None)) < 0.0
  {
  }

  /** The score reaches exactly 100, and stays there, once the weighted engagement is at least
      a tenth of the followers (with followers) or at least 1000 (without). */
  lemma ScoreSaturates(c: Raw)
    requires IsPositive(c.followerCount) ==> Weighted(c) * 10.0 >= c.followerCount.value as real
    requires !IsPositive(c.followerCount) ==> Weighted(c) >= 1000.0
    ensures AudienceScore(c) == 100.0
  {
  }

  /** With followers, the unclamped score is ten times the rate plus a hundred times the
      views per follower: the two derived fields are tied to each other. */
  lemma ScoreFromRate(c: Raw)
    requires IsPositive(c.followerCount)
    ensures AudienceScore(c)
            == Min(100.0, 10.0 * FollowerRate(c)
                          + 100.0 * c.views.GetOr(0) as real / c.followerCount.value as real)
  {
    var f := c.followerCount.value as real;
    var t := Total(c) as real;
    var v := c.views.GetOr(0) as real;
    WeightedIsTotalPlusViews(c.views.GetOr(0), c.likes.GetOr(0), c.reposts.GetOr(0), c.comments.GetOr(0));
    calc {
      (Weighted(c) / f) * 1000.0;
      ((t + v / 10.0) / f) * 1000.0;
      10.0 * ((t / f) * 100.0) + 100.0 * v / f;
    }
  }

  /** For a non-negative interaction count, more followers never give a higher rate. */
  lemma RateAntitoneInFollowers(c: Raw, followers: int)
    requires Total(c) >= 0
    requires IsPositive(c.followerCount) && c.followerCount.value <= followers
    ensures FollowerRate(c.(followerCount := Some(followers))) <= FollowerRate(c)
  {
    DivAntitone(Total(c) as real, c.followerCount.value as real, followers as real);
  }

  /** Dividing a non-negative amount by a larger positive number gives no more. */
  lemma DivAntitone(t: real, f: real, g: real)
    requires t >= 0.0 && 0.0 < f <= g
    ensures t / g <= t / f
  {
  }

  /** For a fixed follower count, raising any counter never lowers the score. */
  lemma ScoreMonotone(c: Raw, d: Raw)
    requires d.followerCount == c.followerCount
    requires c.views.GetOr(0) <= d.views.GetOr(0) && c.likes.GetOr(0) <= d.likes.GetOr(0)
    requires c.reposts.GetOr(0) <= d.reposts.GetOr(0) && c.comments.GetOr(0) <= d.comments.GetOr(0)
    ensures AudienceScore(c) <= AudienceScore(d)
  {
    WeightedMonotone(c.views.GetOr(0), c.likes.GetOr(0), c.reposts.GetOr(0), c.comments.GetOr(0),
                     d.views.GetOr(0), d.likes.GetOr(0), d.reposts.GetOr(0), d.comments.GetOr(0));
    if IsPositive(c.followerCount) {
      var f := c.followerCount.value as real;
      assert Weighted(c) / f <= Weighted(d) / f;
    }
  }

  /** The engagement sub-document that the hook updates in place. */
  class EngagementDoc {
    var views: Option<int>
    var likes: Option<int>
    var reposts: Option<int>
    var comments: Option<int>
    var followerCount: Option<int>
    var engagementRate: Option<real>
    var engagementScore: Option<real>

    /** A sub-document exactly as the request body gave it: this schema declares no defaults. */
    constructor (views: Option<int>, likes: Option<int>, reposts: Option<int>, comments: Option<int>,
                 followerCount: Option<int>, engagementRate: Option<real>, engagementScore: Option<real>)
      ensures Snapshot() == Raw(views, likes, reposts, comments, followerCount)
      ensures this.engagementRate == engagementRate && this.engagementScore == engagementScore
    {
      this.views := views;
      this.likes := likes;
      this.reposts := reposts;
      this.comments := comments;
      this.followerCount := followerCount;
      this.engagementRate := engagementRate;
      this.engagementScore := engagementScore;
    }

    /** The counters the hook reads. */
    function Snapshot(): Raw
      reads this
    {
      Raw(views, likes, reposts, comments, followerCount)
    }

    /** The pre-save hook: overwrites the rate and the score, whatever they held, with values
        computed from the counters alone, and changes nothing else. */
    method PreSave()
      modifies this`engagementRate, this`engagementScore
      ensures Snapshot() == old(Snapshot())
      ensures engagementRate == Some(FollowerRate(Snapshot()))
      ensures engagementScore == Some(AudienceScore(Snapshot()))
    {
      if followerCount.Some? && followerCount.value > 0 {
        var totalEngagement := likes.GetOr(0) + reposts.GetOr(0) * 2 + comments.GetOr(0) * 3;
        engagementRate := Some((totalEngagement as real / followerCount.value as real) * 100.0);
      } else {
        engagementRate := Some(0.0);
      }

      var weightedEngagement :=
        likes.GetOr(0) as real * LikeWeight + reposts.GetOr(0) as real * RepostWeight
        + comments.GetOr(0) as real * CommentWeight + views.GetOr(0) as real * ViewWeight;

      if followerCount.Some? && followerCount.value > 0 {
        engagementScore := Some(Min(100.0, (weightedEngagement / followerCount.value as real) * 1000.0));
      } else {
        engagementScore := Some(Min(100.0, weightedEngagement / 10.0));
      }
    }
  }

  /** Saving twice: the first run sets the rate and the score from the counters, and the second
      run leaves them, and the counters, as the first left them. */
  method SaveTwice(doc: EngagementDoc)
    returns (first: (Option<real>, Option<real>), second: (Option<real>, Option<real>))
    modifies doc`engagementRate, doc`engagementScore
    ensures doc.Snapshot() == old(doc.Snapshot())
    ensures first == (Some(FollowerRate(doc.Snapshot())), Some(AudienceScore(doc.Snapshot())))
    ensures first == second == (doc.engagementRate, doc.engagementScore)
  {
    doc.PreSave();
    first := (doc.engagementRate, doc.engagementScore);
    doc.PreSave();
    second := (doc.engagementRate, doc.engagementScore);
  }
}
