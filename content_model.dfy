/** The pre-save hook of the content schema declared in src/models/Content.ts.
    Its engagement sub-document gives every counter a default of 0, so the hook reads plain
    integers; the rate is taken against `views`, and the score is always the weighted
    engagement divided by 100. */
module ContentModel {
  import opened Js
  import opened Weights

  /** The counters of one engagement sub-document, after the schema defaults are applied. */
  datatype Counters = Counters(views: int, likes: int, reposts: int, comments: int)

  /** The counters a sub-document holds once every absent one has taken its default of 0. */
  function WithDefaults(views: Option<int>, likes: Option<int>, reposts: Option<int>,
                        comments: Option<int>): (c: Counters)
    ensures views.None? ==> c.views == 0
    ensures likes.None? ==> c.likes == 0
    ensures reposts.None? ==> c.reposts == 0
    ensures comments.None? ==> c.comments == 0
    ensures views.Some? ==> c.views == views.value
    ensures likes.Some? ==> c.likes == likes.value
    ensures reposts.Some? ==> c.reposts == reposts.value
    ensures comments.Some? ==> c.comments == comments.value
  {
    Counters(views.GetOr(0), likes.GetOr(0), reposts.GetOr(0), comments.GetOr(0))
  }

  function Total(c: Counters): int {
    TotalEngagement(c.likes, c.reposts, c.comments)
  }

  function Weighted(c: Counters): real {
    WeightedEngagement(c.views, c.likes, c.reposts, c.comments)
  }

  /** engagementRate: the interaction count as a percentage of the views,
      and exactly 0 when the views are zero or negative. */
  function ViewRate(c: Counters): (r: real)
    ensures c.views <= 0 ==> r == 0.0
    ensures c.views > 0 ==> r * c.views as real == Total(c) as real * 100.0
  {
    if c.views > 0 then (Total(c) as real / c.views as real) * 100.0 else 0.0
  }

  /** engagementScore: the weighted engagement divided by 100, clamped above at 100. */
  function FixedScore(c: Counters): (r: real)
    ensures r <= 100.0
    ensures r * 100.0 <= Weighted(c)
    ensures r == 100.0 || r * 100.0 == Weighted(c)
  {
    Min(100.0, Weighted(c) / 100.0)
  }

  predicate NonNegative(c: Counters) {
    c.views >= 0 && c.likes >= 0 && c.reposts >= 0 && c.comments >= 0
  }

  /** With non-negative counters the score lies in 0..100, as the hook's comments promise. */
  lemma ScoreInRange(c: Counters)
    requires NonNegative(c)
    ensures 0.0 <= FixedScore(c) <= 100.0
  {
    NonNegativeCounters(c.views, c.likes, c.reposts, c.comments);
  }

  /** With non-negative counters the rate is never negative; it has no upper bound. */
  lemma RateNonNegative(c: Counters)
    requires NonNegative(c)
    ensures ViewRate(c) >= 0.0
  {
    NonNegativeCounters(c.views, c.likes, c.reposts, c.comments);
  }

  /** The lower bound needs non-negative counters: a single like of -1 gives a negative score. */
  lemma NegativeCounterGivesNegativeScore()
    ensures FixedScore(Counters(0, -1, 0, 0)) < 0.0
  {
  }

  /** A document with no engagement at all gets rate 0 and score 0. */
  lemma AllZero()
    ensures ViewRate(Counters(0, 0, 0, 0)) == 0.0 && FixedScore(Counters(0, 0, 0, 0)) == 0.0
  {
  }

  /** 10 likes, 5 reposts, 2 comments and 100 views: 26 interactions, so rate 26 and score 0.36. */
  lemma WorkedExample()
    ensures ViewRate(Counters(100, 10, 5, 2)) == 26.0
    ensures FixedScore(Counters(100, 10, 5, 2)) == 0.36
  {
  }

  /** The score reaches exactly 100, and stays there, once the weighted engagement is 10000 or more. */
  lemma ScoreSaturates(c: Counters)
    requires Weighted(c) >= 10000.0
    ensures FixedScore(c) == 100.0
  {
  }

  /** Raising any counter never lowers the score. */
  lemma ScoreMonotone(c: Counters, d: Counters)
    requires c.views <= d.views && c.likes <= d.likes && c.reposts <= d.reposts && c.comments <= d.comments
    ensures FixedScore(c) <= FixedScore(d)
  {
  }

  /** The rate is a ratio: multiplying every counter by the same positive factor leaves it unchanged. */
  lemma RateScaleInvariant(c: Counters, k: int)
    requires k > 0
    ensures ViewRate(Counters(k * c.views, k * c.likes, k * c.reposts, k * c.comments)) == ViewRate(c)
  {
  }

  /** The engagement sub-document that the hook updates in place. */
  class EngagementDoc {
    var views: int
    var likes: int
    var reposts: int
    var comments: int
    var engagementRate: real
    var engagementScore: real

    /** A sub-document built from a request body: every absent field takes the schema default 0. */
    constructor (views: Option<int>, likes: Option<int>, reposts: Option<int>, comments: Option<int>,
                 engagementRate: Option<real>, engagementScore: Option<real>)
      ensures Snapshot() == WithDefaults(views, likes, reposts, comments)
      ensures this.engagementRate == engagementRate.GetOr(0.0)
      ensures this.engagementScore == engagementScore.GetOr(0.0)
    {
      this.views := views.GetOr(0);
      this.likes := likes.GetOr(0);
      this.reposts := reposts.GetOr(0);
      this.comments := comments.GetOr(0);
      this.engagementRate := engagementRate.GetOr(0.0);
      this.engagementScore := engagementScore.GetOr(0.0);
    }

    /** The counters the hook reads. */
    function Snapshot(): Counters
      reads this
    {
      Counters(views, likes, reposts, comments)
    }

    /** The pre-save hook: overwrites the rate and the score, whatever they held, with values
        computed from the counters alone, and changes nothing else. */
    method PreSave()
      modifies this`engagementRate, this`engagementScore
      ensures Snapshot() == old(Snapshot())
      ensures engagementRate == ViewRate(Snapshot())
      ensures engagementScore == FixedScore(Snapshot())
    {
      var totalEngagement := likes + (reposts * 2) + (comments * 3);

      if views > 0 {
        engagementRate := (totalEngagement as real / views as real) * 100.0;
      } else {
        engagementRate := 0.0;
      }

      var weightedEngagement :=
        (likes as real * LikeWeight) + (reposts as real * RepostWeight)
        + (comments as real * CommentWeight) + (views as real * ViewWeight);

      engagementScore := Min(100.0, weightedEngagement / 100.0);
    }
  }

  /** Saving twice: the first run sets the rate and the score from the counters, and the second
      run leaves them, and the counters, as the first left them. */
  method SaveTwice(doc: EngagementDoc) returns (first: (real, real), second: (real, real))
    modifies doc`engagementRate, doc`engagementScore
    ensures doc.Snapshot() == old(doc.Snapshot())
    ensures first == (ViewRate(doc.Snapshot()), FixedScore(doc.Snapshot()))
    ensures first == second == (doc.engagementRate, doc.engagementScore)
  {
    doc.PreSave();
    first := (doc.engagementRate, doc.engagementScore);
    doc.PreSave();
    second := (doc.engagementRate, doc.engagementScore);
  }
}
