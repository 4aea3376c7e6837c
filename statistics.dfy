/** The three stateless statistics strategies over one group's posts: aggregate counts,
    engagement rates and performance spread. Each Go `Calculate` is a method whose loops
    are proved against the specification functions below; Go's float64 quotients are
    exact reals here. */
module Statistics {
  import opened Models

  datatype AggregateStats = AggregateStats(
    totalLikes: int,
    avgLikesPerPost: real,
    maxLikesPerPost: int,
    totalComments: int,
    avgCommentsPerPost: real)

  datatype EngagementRate = EngagementRate(
    likeToCommentRatio: real,
    avgViews: int,
    totalEngagement: int)

  datatype PerformanceStats = PerformanceStats(
    topPostLikes: int,
    bottomPostLikes: int,
    varianceInLikes: real,
    postCount: int)

  /** The strategy variants behind Go's `StatisticsStrategy` interface. */
  datatype Strategy = AggregateStrategy | EngagementStrategy | PerformanceStrategy

  /** What a strategy's `Calculate` returns (Go's `interface{}` result). */
  datatype MetricSet =
    | Aggregated(aggregate: AggregateStats)
    | Engagement(engagement: EngagementRate)
    | Performance(performance: PerformanceStats)

  function LikesOf(p: Post): int { p.likes }
  function CommentsOf(p: Post): int { p.comments }
  function ViewsOf(p: Post): int { p.views }
  function ReactionsOf(p: Post): int { p.reactions }
  function EngagementOf(p: Post): int { p.likes + p.comments + p.reactions }

  /** The sum of `f` over the posts, unfolded from the last post so that it follows a
      forward loop over a prefix. */
  function Sum(ps: seq<Post>, f: Post -> int): int
  {
    if ps == [] then 0 else Sum(ps[..|ps| - 1], f) + f(ps[|ps| - 1])
  }

  /** A post's engagement is the sum of its likes, comments and reactions, so the total
      engagement splits into the three totals. */
  lemma {:induction false} SumEngagementSplits(ps: seq<Post>)
    ensures Sum(ps, EngagementOf) == Sum(ps, LikesOf) + Sum(ps, CommentsOf) + Sum(ps, ReactionsOf)
  {
    if ps != [] {
      SumEngagementSplits(ps[..|ps| - 1]);
    }
  }

  /** The running maximum seeded with 0, as both Go loops compute it. */
  function MaxLikes(ps: seq<Post>): (m: int)
    ensures m >= 0
    ensures forall i :: 0 <= i < |ps| ==> ps[i].likes <= m
    ensures m == 0 || exists i :: 0 <= i < |ps| && ps[i].likes == m
  {
    if ps == [] then 0
    else
      var init := ps[..|ps| - 1];
      var m0 := MaxLikes(init);
      assert forall i :: 0 <= i < |init| ==> init[i] == ps[i];
      if ps[|ps| - 1].likes > m0 then ps[|ps| - 1].likes else m0
  }

  /** The running minimum seeded with the first post's likes. */
  function MinLikes(ps: seq<Post>): (m: int)
    requires ps != []
    ensures forall i :: 0 <= i < |ps| ==> m <= ps[i].likes
    ensures exists i :: 0 <= i < |ps| && ps[i].likes == m
  {
    if |ps| == 1 then ps[0].likes
    else
      var init := ps[..|ps| - 1];
      var m0 := MinLikes(init);
      assert forall i :: 0 <= i < |init| ==> init[i] == ps[i];
      if ps[|ps| - 1].likes < m0 then ps[|ps| - 1].likes else m0
  }

  /** With non-negative likes, the zero-seeded maximum of a non-empty input is attained. */
  lemma MaxLikesAttained(ps: seq<Post>)
    requires ps != []
    requires forall i :: 0 <= i < |ps| ==> ps[i].likes >= 0
    ensures exists i :: 0 <= i < |ps| && ps[i].likes == MaxLikes(ps)
  {
    if MaxLikes(ps) == 0 {
      assert ps[0].likes == 0;
    }
  }

  /** Go's integer division, which truncates toward zero (Dafny's `/` is Euclidean). */
  function GoDiv(a: int, n: int): (q: int)
    requires n > 0
    ensures a >= 0 ==> q * n <= a < q * n + n
    ensures a < 0 ==> q * n - n < a <= q * n
  {
    if a >= 0 then a / n else -((-a) / n)
  }

  /** Σ (likes − mean)² over the posts. */
  function SquaredDeviations(ps: seq<Post>, mean: int): (r: int)
    ensures r >= 0
  {
    if ps == [] then 0
    else
      var d := ps[|ps| - 1].likes - mean;
      SquaredDeviations(ps[..|ps| - 1], mean) + d * d
  }

  /** `AggregateStatsStrategy.Calculate` as a value. */
  function Aggregate(ps: seq<Post>): (r: AggregateStats)
    ensures ps == [] ==> r == AggregateStats(0, 0.0, 0, 0, 0.0)
    ensures r.totalLikes == Sum(ps, LikesOf) && r.totalComments == Sum(ps, CommentsOf)
    ensures r.maxLikesPerPost >= 0
    ensures forall i :: 0 <= i < |ps| ==> ps[i].likes <= r.maxLikesPerPost
    ensures ps != [] ==> r.avgLikesPerPost * (|ps| as real) == r.totalLikes as real
    ensures ps != [] ==> r.avgCommentsPerPost * (|ps| as real) == r.totalComments as real
    ensures ps != [] ==> r.maxLikesPerPost == MaxLikes(ps)
  {
    if ps == [] then AggregateStats(0, 0.0, 0, 0, 0.0)
    else
      var n := |ps| as real;
      var likes := Sum(ps, LikesOf);
      var comments := Sum(ps, CommentsOf);
      AggregateStats(likes, likes as real / n, MaxLikes(ps), comments, comments as real / n)
  }

  /** With non-negative likes, the aggregate maximum of a non-empty input is some post's
      likes. */
  lemma AggregateMaxAttained(ps: seq<Post>)
    requires ps != []
    requires forall i :: 0 <= i < |ps| ==> ps[i].likes >= 0
    ensures exists i :: 0 <= i < |ps| && ps[i].likes == Aggregate(ps).maxLikesPerPost
  {
    MaxLikesAttained(ps);
  }

  /** `EngagementRateStrategy.Calculate` as a value. */
  function EngagementOfPosts(ps: seq<Post>): (r: EngagementRate)
    ensures ps == [] ==> r == EngagementRate(0.0, 0, 0)
    ensures ps != [] ==>
      r.totalEngagement == Sum(ps, LikesOf) + Sum(ps, CommentsOf) + Sum(ps, ReactionsOf)
    ensures Sum(ps, CommentsOf) <= 0 ==> r.likeToCommentRatio == 0.0
    ensures ps != [] && Sum(ps, CommentsOf) > 0 ==>
      r.likeToCommentRatio * (Sum(ps, CommentsOf) as real) == Sum(ps, LikesOf) as real
    ensures ps != [] ==> r.avgViews == GoDiv(Sum(ps, ViewsOf), |ps|)
    ensures ps != [] && Sum(ps, ViewsOf) >= 0 ==>
      r.avgViews * |ps| <= Sum(ps, ViewsOf) < r.avgViews * |ps| + |ps|
  {
    if ps == [] then EngagementRate(0.0, 0, 0)
    else
      var likes := Sum(ps, LikesOf);
      var comments := Sum(ps, CommentsOf);
      var ratio := if comments > 0 then likes as real / comments as real else 0.0;
      SumEngagementSplits(ps);
      EngagementRate(ratio, GoDiv(Sum(ps, ViewsOf), |ps|), Sum(ps, EngagementOf))
  }

  /** The float quotient of a total by a count `n > 0`: an average or a variance. */
  function Mean(total: int, n: nat): (m: real)
    requires n > 0
    ensures m * n as real == total as real
  {
    total as real / n as real
  }

  /** The variance of the likes around the mean truncated to an integer: times the post
      count it is the sum of squared deviations from that mean. */
  function VarianceOf(ps: seq<Post>): (v: real)
    requires ps != []
    ensures v * (|ps| as real) == SquaredDeviations(ps, GoDiv(Sum(ps, LikesOf), |ps|)) as real
  {
    Mean(SquaredDeviations(ps, GoDiv(Sum(ps, LikesOf), |ps|)), |ps|)
  }

  /** `PerformanceStatsStrategy.Calculate` as a value: the variance is taken around the
      mean truncated to an integer first. */
  function PerformanceOf(ps: seq<Post>): (r: PerformanceStats)
    ensures ps == [] ==> r == PerformanceStats(0, 0, 0.0, 0)
    ensures ps != [] ==> r.postCount == |ps|
    ensures ps != [] ==> r.varianceInLikes == VarianceOf(ps)
    ensures ps != [] ==> r.topPostLikes == MaxLikes(ps) && r.bottomPostLikes == MinLikes(ps)
    ensures r.topPostLikes >= 0
    ensures forall i :: 0 <= i < |ps| ==> ps[i].likes <= r.topPostLikes
    ensures forall i :: 0 <= i < |ps| ==> r.bottomPostLikes <= ps[i].likes
    ensures ps != [] ==> exists i :: 0 <= i < |ps| && ps[i].likes == r.bottomPostLikes
  {
    if ps == [] then PerformanceStats(0, 0, 0.0, 0)
    else
      PerformanceStats(MaxLikes(ps), MinLikes(ps), VarianceOf(ps), |ps|)
  }

  /** The strategy dispatch of the Go interface. */
  function MetricsOf(s: Strategy, ps: seq<Post>): MetricSet
  {
    match s
    case AggregateStrategy => Aggregated(Aggregate(ps))
    case EngagementStrategy => Engagement(EngagementOfPosts(ps))
    case PerformanceStrategy => Performance(PerformanceOf(ps))
  }

  method CalculateAggregate(posts: seq<Post>) returns (stats: AggregateStats)
    ensures stats == Aggregate(posts)
  {
    if |posts| == 0 {
      return AggregateStats(0, 0.0, 0, 0, 0.0);
    }
    var totalLikes, maxLikes, totalComments := 0, 0, 0;
    for i := 0 to |posts|
      invariant totalLikes == Sum(posts[..i], LikesOf)
      invariant totalComments == Sum(posts[..i], CommentsOf)
      invariant maxLikes == MaxLikes(posts[..i])
    {
      assert posts[..i + 1][..i] == posts[..i];
      totalLikes := totalLikes + posts[i].likes;
      totalComments := totalComments + posts[i].comments;
      if posts[i].likes > maxLikes {
        maxLikes := posts[i].likes;
      }
    }
    assert posts[..|posts|] == posts;
    var n := |posts| as real;
    stats := AggregateStats(totalLikes, totalLikes as real / n, maxLikes, totalComments, totalComments as real / n);
  }

  method CalculateEngagement(posts: seq<Post>) returns (rate: EngagementRate)
    ensures rate == EngagementOfPosts(posts)
  {
    if |posts| == 0 {
      return EngagementRate(0.0, 0, 0);
    }
    var totalLikes, totalComments, totalViews, totalEngagement := 0, 0, 0, 0;
    for i := 0 to |posts|
      invariant totalLikes == Sum(posts[..i], LikesOf)
      invariant totalComments == Sum(posts[..i], CommentsOf)
      invariant totalViews == Sum(posts[..i], ViewsOf)
      invariant totalEngagement == Sum(posts[..i], EngagementOf)
    {
      assert posts[..i + 1][..i] == posts[..i];
      totalLikes := totalLikes + posts[i].likes;
      totalComments := totalComments + posts[i].comments;
      totalViews := totalViews + posts[i].views;
      totalEngagement := totalEngagement + posts[i].likes + posts[i].comments + posts[i].reactions;
    }
    assert posts[..|posts|] == posts;
    var ratio := 0.0;
    if totalComments > 0 {
      ratio := totalLikes as real / totalComments as real;
    }
    rate := EngagementRate(ratio, GoDiv(totalViews, |posts|), totalEngagement);
  }

  method CalculatePerformance(posts: seq<Post>) returns (perf: PerformanceStats)
    ensures perf == PerformanceOf(posts)
  {
    if |posts| == 0 {
      return PerformanceStats(0, 0, 0.0, 0);
    }
    var totalLikes, topLikes, bottomLikes := LikesTotals(posts);
    var avgLikes := GoDiv(totalLikes, |posts|);
    var sumSquares := SumOfSquares(posts, avgLikes);
    perf := PerformanceStats(topLikes, bottomLikes, Mean(sumSquares, |posts|), |posts|);
  }

  /** The first loop of the performance strategy: total, top (seeded with 0) and bottom
      (seeded with the first post) likes. */
  method LikesTotals(posts: seq<Post>) returns (totalLikes: int, topLikes: int, bottomLikes: int)
    requires posts != []
    ensures totalLikes == Sum(posts, LikesOf)
    ensures topLikes == MaxLikes(posts)
    ensures bottomLikes == MinLikes(posts)
  {
    topLikes, bottomLikes, totalLikes := 0, posts[0].likes, 0;
    var i := 0;
    while i < |posts|
      invariant 0 <= i <= |posts|
      invariant totalLikes == Sum(posts[..i], LikesOf)
      invariant topLikes == MaxLikes(posts[..i])
      invariant i == 0 ==> bottomLikes == posts[0].likes
      invariant i > 0 ==> bottomLikes == MinLikes(posts[..i])
    {
      assert posts[..i + 1][..i] == posts[..i];
      totalLikes := totalLikes + posts[i].likes;
      if posts[i].likes > topLikes {
        topLikes := posts[i].likes;
      }
      if posts[i].likes < bottomLikes {
        bottomLikes := posts[i].likes;
      }
      i := i + 1;
    }
    assert posts[..|posts|] == posts;
  }

  /** The second loop of the performance strategy: Σ (likes − mean)². */
  method SumOfSquares(posts: seq<Post>, mean: int) returns (sumSquares: int)
    ensures sumSquares == SquaredDeviations(posts, mean)
  {
    sumSquares := 0;
    var i := 0;
    while i < |posts|
      invariant 0 <= i <= |posts|
      invariant sumSquares == SquaredDeviations(posts[..i], mean)
    {
      assert posts[..i + 1][..i] == posts[..i];
      var diff := posts[i].likes - mean;
      sumSquares := sumSquares + diff * diff;
      i := i + 1;
    }
    assert posts[..|posts|] == posts;
  }

  /** Calls the chosen strategy; every strategy is a pure function of its input. */
  method Calculate(s: Strategy, posts: seq<Post>) returns (m: MetricSet)
    ensures m == MetricsOf(s, posts)
  {
    match s {
      case AggregateStrategy =>
        var a := CalculateAggregate(posts);
        m := Aggregated(a);
      case EngagementStrategy =>
        var e := CalculateEngagement(posts);
        m := Engagement(e);
      case PerformanceStrategy =>
        var p := CalculatePerformance(posts);
        m := Performance(p);
    }
  }
  /** A post that only carries counters, as the test tables write them. */
  function Sample(likes: int, comments: int, views: int, reactions: int): Post
  {
    Post(0, 0, "", views, reactions, likes, "", comments)
  }

  /** The prefixes a three-post literal unfolds through. */
  lemma Prefixes3(ps: seq<Post>)
    requires |ps| == 3
    ensures ps[..|ps| - 1] == [ps[0], ps[1]]
    ensures [ps[0], ps[1]][..1] == [ps[0]]
    ensures [ps[0]][..0] == []
  {
  }

  /** The aggregate test table: 100, 200, 300 likes give 600 in total, 200.0 on
      average and 300 at most; the comments average 20.0. */
  lemma AggregateExample()
    ensures Aggregate([Sample(100, 10, 0, 0), Sample(200, 20, 0, 0), Sample(300, 30, 0, 0)])
      == AggregateStats(600, 200.0, 300, 60, 20.0)
  {
    var ps := [Sample(100, 10, 0, 0), Sample(200, 20, 0, 0), Sample(300, 30, 0, 0)];
    Prefixes3(ps);
    assert Sum([ps[0]], LikesOf) == 100;
    assert Sum([ps[0], ps[1]], LikesOf) == 300;
    assert Sum(ps, LikesOf) == 600;
    assert Sum([ps[0]], CommentsOf) == 10;
    assert Sum([ps[0], ps[1]], CommentsOf) == 30;
    assert Sum(ps, CommentsOf) == 60;
    assert MaxLikes(ps) == 300;
  }

  /** The engagement test tables: 425 total engagement with 1250 average views, 17
      with 100, and a ratio of 5.0 likes per comment. */
  lemma EngagementExamples()
    ensures EngagementOfPosts([Sample(100, 20, 1000, 50), Sample(150, 30, 1500, 75)])
      == EngagementRate(250.0 / 50.0, 1250, 425)
    ensures EngagementOfPosts([Sample(10, 2, 100, 5)]) == EngagementRate(5.0, 100, 17)
  {
    var ps := [Sample(100, 20, 1000, 50), Sample(150, 30, 1500, 75)];
    assert ps[..|ps| - 1] == [ps[0]];
    assert [ps[0]][..0] == [];
    assert Sum([ps[0]], LikesOf) == 100;
    assert Sum([ps[0]], CommentsOf) == 20;
    assert Sum([ps[0]], ViewsOf) == 1000;
    assert Sum(ps, LikesOf) == 250;
    assert Sum(ps, CommentsOf) == 50;
    assert Sum(ps, ViewsOf) == 2500;
    assert Sum(ps, EngagementOf) == 425;
  }

  /** The like-to-comment ratio tests: no comments give 0.0, equal counts 1.0 and
      200 likes over 50 comments 4.0. */
  lemma RatioExamples()
    ensures EngagementOfPosts([Sample(100, 0, 0, 0)]).likeToCommentRatio == 0.0
    ensures EngagementOfPosts([Sample(100, 100, 0, 0)]).likeToCommentRatio == 1.0
    ensures EngagementOfPosts([Sample(200, 50, 0, 0)]).likeToCommentRatio == 4.0
  {
  }

  /** The performance test table: 50, 100, 150 likes give top 150, bottom 50, three
      posts, and squared deviations 5000 around the truncated mean 100. */
  lemma PerformanceExample()
    ensures PerformanceOf([Sample(50, 0, 0, 0), Sample(100, 0, 0, 0), Sample(150, 0, 0, 0)])
      == PerformanceStats(150, 50, 5000.0 / 3.0, 3)
  {
    var ps := [Sample(50, 0, 0, 0), Sample(100, 0, 0, 0), Sample(150, 0, 0, 0)];
    Prefixes3(ps);
    assert Sum([ps[0]], LikesOf) == 50;
    assert Sum([ps[0], ps[1]], LikesOf) == 150;
    assert Sum(ps, LikesOf) == 300;
    assert GoDiv(300, 3) == 100;
    assert SquaredDeviations([ps[0]], 100) == 2500;
    assert SquaredDeviations([ps[0], ps[1]], 100) == 2500;
    assert SquaredDeviations(ps, 100) == 5000;
    assert MaxLikes(ps) == 150;
    assert MinLikes(ps) == 50;
  }

  /** Every strategy gives zeros on an empty input. */
  lemma EmptyInputGivesZeros()
    ensures Aggregate([]) == AggregateStats(0, 0.0, 0, 0, 0.0)
    ensures EngagementOfPosts([]) == EngagementRate(0.0, 0, 0)
    ensures PerformanceOf([]) == PerformanceStats(0, 0, 0.0, 0)
  {
  }
}
