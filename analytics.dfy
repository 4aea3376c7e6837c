/** The dashboard's read path: per-group statistics and the cross-group chart series,
    computed from an in-memory stand-in for the database. */
module Analytics {
  import opened Wrappers
  import opened Models
  import opened Statistics

  /** The database as the analytics service sees it. `listFails` makes the group listing
      fail; a group whose ID is in `failingPostQueries` gets an error from its post query. */
  datatype Store = Store(
    groups: seq<Group>,
    posts: seq<Post>,
    listFails: bool,
    failingPostQueries: set<nat>)

  datatype AnalyticsError = GroupListingFailed

  datatype GroupStats = GroupStats(
    id: nat,
    domain: string,
    subscribers: int,
    parsedAt: string,
    totalPosts: int,
    totalLikes: int,
    avgLikesPerPost: real,
    maxLikesPerPost: int,
    avgCommentsPerPost: real,
    postsLastWeek: int)

  datatype ChartData = ChartData(subscribers: seq<int>, avgLikes: seq<real>, avgComments: seq<real>)

  /** The posts the query for group `g` yields; a failed query is logged and yields none. */
  function FetchPosts(store: Store, g: Group): (r: seq<Post>)
    ensures g.id in store.failingPostQueries ==> r == []
    ensures |r| <= |store.posts|
  {
    if g.id in store.failingPostQueries then [] else PostsOf(store.posts, g.id)
  }

  /** The displayed parse time: `-` for the zero time, otherwise `formatTime` of it
      (Go's layout `2006-01-02 15:04`, an opaque function of the instant here). */
  function ParsedAtText(t: Timestamp, formatTime: int -> string): (s: string)
    ensures t.Zero? ==> s == "-"
    ensures t.At? ==> s == formatTime(t.unixMilli)
  {
    match t
    case Zero => "-"
    case At(ms) => formatTime(ms)
  }

  /** What `calculateGroupStat` returns for `g`. */
  function GroupStat(store: Store, g: Group, formatTime: int -> string): (r: GroupStats)
    ensures r.id == g.id && r.domain == g.domain && r.subscribers == g.subscribers
    ensures r.totalPosts == |FetchPosts(store, g)| && r.postsLastWeek == 0
  {
    var posts := FetchPosts(store, g);
    var parsedAt := ParsedAtText(g.parsedAt, formatTime);
    if |posts| > 0 then
      GroupStats(g.id, g.domain, g.subscribers, parsedAt, |posts|,
                 Sum(posts, LikesOf), Mean(Sum(posts, LikesOf), |posts|), MaxLikes(posts),
                 Mean(Sum(posts, CommentsOf), |posts|), 0)
    else
      GroupStats(g.id, g.domain, g.subscribers, parsedAt, 0, 0, 0.0, 0, 0.0, 0)
  }

  /** The stats of each group of `gs`, in order: one entry per group. */
  function GroupStatsOf(store: Store, gs: seq<Group>, formatTime: int -> string): seq<GroupStats>
  {
    seq(|gs|, i requires 0 <= i < |gs| => GroupStat(store, gs[i], formatTime))
  }

  /** A group's stats copy its identity and count its posts; their likes and averages are
      those of the aggregate strategy on the same posts, zero when a group has none. */
  lemma GroupStatMeaning(store: Store, g: Group, formatTime: int -> string)
    ensures var st := GroupStat(store, g, formatTime);
      var posts := FetchPosts(store, g);
      var agg := Aggregate(posts);
      && st.id == g.id && st.domain == g.domain && st.subscribers == g.subscribers
      && st.parsedAt == (if g.parsedAt.Zero? then "-" else formatTime(g.parsedAt.unixMilli))
      && st.totalPosts == |posts|
      && st.totalLikes == agg.totalLikes
      && st.maxLikesPerPost == agg.maxLikesPerPost
      && st.avgLikesPerPost == agg.avgLikesPerPost
      && st.avgCommentsPerPost == agg.avgCommentsPerPost
      && st.postsLastWeek == 0
  {
  }

  /** A group with no posts, or whose post query failed, shows zero likes and averages. */
  lemma NoPostsGivesZeros(store: Store, g: Group, formatTime: int -> string)
    requires g.id in store.failingPostQueries ||
             forall i :: 0 <= i < |store.posts| ==> store.posts[i].groupId != g.id
    ensures var st := GroupStat(store, g, formatTime);
      st.totalPosts == 0 && st.totalLikes == 0 && st.maxLikesPerPost == 0 &&
      st.avgLikesPerPost == 0.0 && st.avgCommentsPerPost == 0.0
  {
    if g.id !in store.failingPostQueries {
      PostsOfNone(store.posts, g.id);
    }
  }

  /** A failing post query only affects its own group's entry. */
  lemma PostQueryFailureIsolated(store: Store, failing: nat, g: Group, formatTime: int -> string)
    requires g.id != failing
    ensures GroupStat(store.(failingPostQueries := store.failingPostQueries + {failing}), g, formatTime)
         == GroupStat(store, g, formatTime)
    ensures var bad := store.(failingPostQueries := store.failingPostQueries + {failing});
      FetchPosts(bad, g.(id := failing)) == []
  {
  }

  /** The four posts of the "varying" test group. */
  function VaryingPosts(): seq<Post>
  {
    [Post(1, 1, "", 0, 0, 50, "", 5), Post(2, 1, "", 0, 0, 150, "", 15),
     Post(3, 1, "", 0, 0, 100, "", 10), Post(4, 1, "", 0, 0, 200, "", 20)]
  }

  /** The totals of the "varying" posts: 500 likes, 50 comments, at most 200 likes. */
  lemma VaryingTotals()
    ensures PostsOf(VaryingPosts(), 1) == VaryingPosts()
    ensures Sum(VaryingPosts(), LikesOf) == 500
    ensures Sum(VaryingPosts(), CommentsOf) == 50
    ensures MaxLikes(VaryingPosts()) == 200
  {
    var ps := VaryingPosts();
    PostsNotOfAll(ps, 1);
    assert ps[..3] == [ps[0], ps[1], ps[2]];
    assert [ps[0], ps[1], ps[2]][..2] == [ps[0], ps[1]];
    assert [ps[0], ps[1]][..1] == [ps[0]];
    assert [ps[0]][..0] == [];
    assert Sum([ps[0]], LikesOf) == 50;
    assert Sum([ps[0], ps[1]], LikesOf) == 200;
    assert Sum([ps[0], ps[1], ps[2]], LikesOf) == 300;
    assert Sum([ps[0]], CommentsOf) == 5;
    assert Sum([ps[0], ps[1]], CommentsOf) == 20;
    assert Sum([ps[0], ps[1], ps[2]], CommentsOf) == 30;
    assert MaxLikes([ps[0]]) == 50;
    assert MaxLikes([ps[0], ps[1]]) == 150;
    assert MaxLikes([ps[0], ps[1], ps[2]]) == 150;
  }

  /** The "varying" test group: 4 posts, 500 likes, 125.0 likes and 12.5 comments on
      average, at most 200 likes, and `-` for its zero parse time. */
  lemma GroupStatExample(formatTime: int -> string)
    ensures GroupStat(Store([Group(1, "varying", 500, Zero)], VaryingPosts(), false, {}),
                      Group(1, "varying", 500, Zero), formatTime)
      == GroupStats(1, "varying", 500, "-", 4, 500, 125.0, 200, 12.5, 0)
  {
    VaryingTotals();
    assert Mean(500, 4) == 125.0;
    assert Mean(50, 4) == 12.5;
  }

  method CalculateGroupStat(store: Store, g: Group, formatTime: int -> string) returns (stats: GroupStats)
    ensures stats == GroupStat(store, g, formatTime)
  {
    var posts := FetchPosts(store, g);
    var parsedAt := "-";
    if !g.parsedAt.Zero? {
      parsedAt := formatTime(g.parsedAt.unixMilli);
    }
    stats := GroupStats(g.id, g.domain, g.subscribers, parsedAt, |posts|, 0, 0.0, 0, 0.0, 0);
    if |posts| > 0 {
      var totalLikes, maxLikes, totalComments := PostTotals(posts);
      stats := stats.(totalLikes := totalLikes, maxLikesPerPost := maxLikes,
                      avgLikesPerPost := Mean(totalLikes, |posts|),
                      avgCommentsPerPost := Mean(totalComments, |posts|));
    }
  }

  /** The single pass over a group's posts: like total, like maximum, comment total. */
  method PostTotals(posts: seq<Post>) returns (totalLikes: int, maxLikes: int, totalComments: int)
    ensures totalLikes == Sum(posts, LikesOf)
    ensures maxLikes == MaxLikes(posts)
    ensures totalComments == Sum(posts, CommentsOf)
  {
    totalLikes, maxLikes, totalComments := 0, 0, 0;
    for i := 0 to |posts|
      invariant totalLikes == Sum(posts[..i], LikesOf)
      invariant totalComments == Sum(posts[..i], CommentsOf)
      invariant maxLikes == MaxLikes(posts[..i])
    {
      assert posts[..i + 1][..i] == posts[..i];
      totalLikes := totalLikes + posts[i].likes;
      totalComments := totalComments + posts[i].comments;
      if posts[i].likes > maxLikes {
        maxLikes := posts[i].likes;
      }
    }
    assert posts[..|posts|] == posts;
  }

  /** One entry per listed group, in listing order; a listing error propagates. */
  method CalculateGroupStats(store: Store, formatTime: int -> string)
    returns (r: Result<seq<GroupStats>, AnalyticsError>)
    ensures r.Failure? <==> store.listFails
    ensures r.Failure? ==> r.error == GroupListingFailed
    ensures r.Success? ==> r.value == GroupStatsOf(store, store.groups, formatTime)
  {
    if store.listFails {
      return Failure(GroupListingFailed);
    }
    var stats: seq<GroupStats> := [];
    for i := 0 to |store.groups|
      invariant stats == GroupStatsOf(store, store.groups[..i], formatTime)
    {
      var groupStat := CalculateGroupStat(store, store.groups[i], formatTime);
      assert store.groups[..i + 1][..i] == store.groups[..i];
      stats := stats + [groupStat];
    }
    assert store.groups[..|store.groups|] == store.groups;
    return Success(stats);
  }

  /** The chart series: index i holds the i-th entry's subscribers and averages; on a
      listing error the series are empty. */
  method CalculateChartData(store: Store, formatTime: int -> string)
    returns (chart: ChartData, err: Option<AnalyticsError>)
    ensures err.Some? <==> store.listFails
    ensures err.Some? ==> chart == ChartData([], [], [])
    ensures err.None? ==> chart == ChartOf(GroupStatsOf(store, store.groups, formatTime))
  {
    var stats := CalculateGroupStats(store, formatTime);
    if stats.Failure? {
      return ChartData([], [], []), Some(stats.error);
    }
    chart := FillChart(stats.value);
    return chart, None;
  }

  /** The index-by-index fill of the three series. */
  method FillChart(stats: seq<GroupStats>) returns (chart: ChartData)
    ensures chart == ChartOf(stats)
  {
    var n := |stats|;
    var subscribers := new int[n];
    var avgLikes := new real[n];
    var avgComments := new real[n];
    for i := 0 to n
      invariant forall k :: 0 <= k < i ==> subscribers[k] == stats[k].subscribers
      invariant forall k :: 0 <= k < i ==> avgLikes[k] == stats[k].avgLikesPerPost
      invariant forall k :: 0 <= k < i ==> avgComments[k] == stats[k].avgCommentsPerPost
    {
      subscribers[i] := stats[i].subscribers;
      avgLikes[i] := stats[i].avgLikesPerPost;
      avgComments[i] := stats[i].avgCommentsPerPost;
    }
    chart := ChartData(subscribers[..], avgLikes[..], avgComments[..]);
    ChartOfAt(stats, chart);
  }

  /** The three parallel series of a list of stats. */
  function ChartOf(stats: seq<GroupStats>): (c: ChartData)
    ensures |c.subscribers| == |stats| && |c.avgLikes| == |stats| && |c.avgComments| == |stats|
    ensures forall i :: 0 <= i < |stats| ==>
      c.subscribers[i] == stats[i].subscribers &&
      c.avgLikes[i] == stats[i].avgLikesPerPost &&
      c.avgComments[i] == stats[i].avgCommentsPerPost
  {
    ChartData(seq(|stats|, i requires 0 <= i < |stats| => stats[i].subscribers),
              seq(|stats|, i requires 0 <= i < |stats| => stats[i].avgLikesPerPost),
              seq(|stats|, i requires 0 <= i < |stats| => stats[i].avgCommentsPerPost))
  }

  /** Series of the right length whose i-th entries come from the i-th stats are the
      series of those stats. */
  lemma ChartOfAt(stats: seq<GroupStats>, chart: ChartData)
    requires |chart.subscribers| == |stats| && |chart.avgLikes| == |stats| && |chart.avgComments| == |stats|
    requires forall k :: 0 <= k < |stats| ==> chart.subscribers[k] == stats[k].subscribers
    requires forall k :: 0 <= k < |stats| ==> chart.avgLikes[k] == stats[k].avgLikesPerPost
    requires forall k :: 0 <= k < |stats| ==> chart.avgComments[k] == stats[k].avgCommentsPerPost
    ensures chart == ChartOf(stats)
  {
  }

  /** Each chart series has one entry per group, and index i holds the i-th group's
      subscribers, average likes and average comments. */
  lemma ChartSeriesMeaning(store: Store, formatTime: int -> string)
    ensures var chart := ChartOf(GroupStatsOf(store, store.groups, formatTime));
      && |chart.subscribers| == |store.groups|
      && |chart.avgLikes| == |store.groups|
      && |chart.avgComments| == |store.groups|
      && forall i :: 0 <= i < |store.groups| ==>
           chart.subscribers[i] == store.groups[i].subscribers &&
           chart.avgLikes[i] == GroupStat(store, store.groups[i], formatTime).avgLikesPerPost &&
           chart.avgComments[i] == GroupStat(store, store.groups[i], formatTime).avgCommentsPerPost
  {
  }
}
