/** Preparing the dashboard's rows and chart series for the page: field copies of the
    analytics results. */
module TemplateData {
  import opened Wrappers
  import opened Analytics

  /** A displayed row: the group stats without `postsLastWeek`. */
  datatype TemplateGroupData = TemplateGroupData(
    id: nat,
    domain: string,
    subscribers: int,
    parsedAt: string,
    totalPosts: int,
    totalLikes: int,
    avgLikesPerPost: real,
    maxLikesPerPost: int,
    avgCommentsPerPost: real)

  datatype ChartDataForTemplate = ChartDataForTemplate(
    subscribers: seq<int>,
    avgLikes: seq<real>,
    avgComments: seq<real>)

  /** The row shows the nine displayed fields of the stats unchanged. */
  predicate ShowsStat(row: TemplateGroupData, st: GroupStats)
  {
    && row.id == st.id && row.domain == st.domain && row.subscribers == st.subscribers
    && row.parsedAt == st.parsedAt && row.totalPosts == st.totalPosts
    && row.totalLikes == st.totalLikes && row.avgLikesPerPost == st.avgLikesPerPost
    && row.maxLikesPerPost == st.maxLikesPerPost && row.avgCommentsPerPost == st.avgCommentsPerPost
  }

  /** The rows for a list of stats: as many, in the same order, each showing its stats. */
  method RowsFor(stats: seq<GroupStats>) returns (rows: seq<TemplateGroupData>)
    ensures |rows| == |stats|
    ensures forall i :: 0 <= i < |stats| ==> ShowsStat(rows[i], stats[i])
  {
    var templateData := new TemplateGroupData[|stats|];
    for i := 0 to |stats|
      invariant forall k :: 0 <= k < i ==> ShowsStat(templateData[k], stats[k])
    {
      var st := stats[i];
      templateData[i] := TemplateGroupData(st.id, st.domain, st.subscribers, st.parsedAt, st.totalPosts,
                                           st.totalLikes, st.avgLikesPerPost, st.maxLikesPerPost,
                                           st.avgCommentsPerPost);
    }
    rows := templateData[..];
  }

  /** One row per group, in listing order; an analytics error gives no rows. */
  method PrepareGroupsForTemplate(store: Store, formatTime: int -> string)
    returns (r: Result<seq<TemplateGroupData>, AnalyticsError>)
    ensures r.Failure? <==> store.listFails
    ensures r.Success? ==>
      var stats := GroupStatsOf(store, store.groups, formatTime);
      |r.value| == |stats| && forall i :: 0 <= i < |stats| ==> ShowsStat(r.value[i], stats[i])
  {
    var stats := CalculateGroupStats(store, formatTime);
    if stats.Failure? {
      return Failure(stats.error);
    }
    var rows := RowsFor(stats.value);
    return Success(rows);
  }

  /** The chart series passed through unchanged. */
  function ChartForTemplate(chart: ChartData): ChartDataForTemplate
  {
    ChartDataForTemplate(chart.subscribers, chart.avgLikes, chart.avgComments)
  }

  /** The chart series of the analytics service, or the empty value on its error. */
  method PrepareChartDataForTemplate(store: Store, formatTime: int -> string)
    returns (data: ChartDataForTemplate, err: Option<AnalyticsError>)
    ensures err.Some? <==> store.listFails
    ensures err.Some? ==> data == ChartDataForTemplate([], [], [])
    ensures err.None? ==>
      var chart := ChartOf(GroupStatsOf(store, store.groups, formatTime));
      data.subscribers == chart.subscribers && data.avgLikes == chart.avgLikes &&
      data.avgComments == chart.avgComments
  {
    var chart, e := CalculateChartData(store, formatTime);
    if e.Some? {
      return ChartDataForTemplate([], [], []), e;
    }
    return ChartForTemplate(chart), None;
  }
}
