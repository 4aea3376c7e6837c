# social-media-analyzer: the ingestion and analytics core in Dafny

The service tracks VK communities. A user submits a group link. The service:

- resolves the link to the group's screen name (`ExtractGroupScreenName`);
- checks the name against the screen-name pattern;
- asks the VK API for the group (`GetGroupInfo`);
- stores the group by domain: it updates a known domain and inserts a new one;
- replaces the group's stored posts with the wall's latest 100 posts (`fetchAndSaveWallPosts`).

The dashboard computes per-group statistics and parallel chart series from the stored
groups and posts. It then copies them into the rows and series the page displays. Three
stateless strategies (aggregate, engagement, performance) compute metrics over a list of
posts.

Modules, one per core area:

- `Wrappers` (`wrappers.dfy`): the `Option` and `Result` types the other modules use.
- `Models` (`models.dfy`): the `Group` and `Post` records of `group_model.go` and
  `post_model.go`, plus the group filters over the post table.
- `Statistics` (`statistics.dfy`): the three strategies. Each `Calculate` is a loop
  method proved equal to a specification function on the posts, and the pure facts
  are proved about those functions.
- `VkService` (`vk_service.dfy`): the steps of link resolution, the pattern check, the
  wall count clamp, and the acceptance rules for decoded API responses.
- `Analytics` (`analytics.dfy`): the per-group stats and the chart series over an
  in-memory stand-in for the database.
- `TemplateData` (`template_data.dfy`): the copying into display rows.
- `Controller` (`controller.dfy`): a `GroupController` class. It holds the group table
  and the post table as `seq` fields, with their key counters. `AddGroup` and
  `FetchAndSaveWallPosts` are proved equal to step functions on the tables, and
  uniqueness, idempotence and isolation are lemmas about those step functions.

Outside inputs are parameters:

- the remote API's answers: `lookup` and `wall`, functions from the request to a
  `Fetch` result (transport error, undecodable body, or decoded body);
- the store's refusals: flags and index sets;
- the clock and the date formatting.

A result that ignores a parameter means the request behind it is never made.

## Model

| member | source | states |
|---|---|---|
| Statistics.CalculateAggregate | internal/service/statistics_strategy.go:25-55 | The result equals `Aggregate(posts)`. |
| Statistics.Aggregate | internal/service/statistics_strategy.go:25-55 | Empty input gives all zeros. The totals are the like and comment sums. The maximum is the zero-seeded running maximum `MaxLikes`: non-negative and at least every post's likes. Each average times the post count equals its total. |
| Statistics.AggregateMaxAttained | internal/service/statistics_strategy.go:37-46 | With non-negative likes, the aggregate maximum of a non-empty input is some post's likes. |
| Statistics.CalculateEngagement | internal/service/statistics_strategy.go:68-99 | The result equals `EngagementOfPosts(posts)`. |
| Statistics.EngagementOfPosts | internal/service/statistics_strategy.go:68-99 | Empty input gives zeros. Total engagement is likes plus comments plus reactions. With no positive comment total the ratio is 0. Otherwise ratio times comments equals likes. Average views is Go's truncating quotient of the view total by the post count, bounded as a floor for a non-negative total. |
| Statistics.CalculatePerformance | internal/service/statistics_strategy.go:113-156 | The result equals `PerformanceOf(posts)`. |
| Statistics.LikesTotals | internal/service/statistics_strategy.go:123-138 | The first loop gives the like sum, the zero-seeded maximum and the minimum seeded with the first post. |
| Statistics.SumOfSquares | internal/service/statistics_strategy.go:142-146 | The second loop gives the sum of squared deviations from the given mean. |
| Statistics.PerformanceOf | internal/service/statistics_strategy.go:113-156 | Empty input gives zeros. The count is the post count. Top is the zero-seeded running maximum `MaxLikes`, and bottom is the first-post-seeded running minimum `MinLikes`. Top is non-negative and at least every post's likes. Bottom is at most every post's likes and is attained. The variance is `VarianceOf`. |
| Statistics.VarianceOf | internal/service/statistics_strategy.go:141-150 | The variance times the post count equals the sum of squared deviations around the mean truncated to an integer. |
| Statistics.Calculate | internal/service/statistics_strategy.go:7-10 | The dispatched strategy's result is `MetricsOf(s, posts)`. |
| Statistics.MaxLikes | internal/service/statistics_strategy.go:37-46 | The running maximum seeded with 0 is non-negative and bounds every post. It is 0 or attained. |
| Statistics.MinLikes | internal/service/statistics_strategy.go:124-137 | The running minimum bounds every post from below and is attained. |
| Statistics.MaxLikesAttained | internal/service/statistics_strategy.go:37-46 | With non-negative likes, the maximum of a non-empty input is some post's likes. |
| Statistics.GoDiv | internal/service/statistics_strategy.go:96 | Go's division truncates toward zero. The quotient bounds are given for both signs. |
| Statistics.SquaredDeviations | internal/service/statistics_strategy.go:143-146 | A sum of squares is non-negative. |
| Statistics.SumEngagementSplits | internal/service/statistics_strategy.go:86 | The engagement total splits into the like, comment and reaction totals. |
| Statistics.AggregateExample | internal/service/statistics_strategy_test.go:37-47 | 100/200/300 likes give 600 total, 200.0 average and 300 maximum. |
| Statistics.EngagementExamples | internal/service/statistics_strategy_test.go:84-101 | The two engagement test tables give 425 and 17 total engagement. |
| Statistics.RatioExamples | internal/service/statistics_strategy_test.go:127-141 | The ratio is 0.0 with no comments, 1.0 for equal counts and 4.0 for 200/50. |
| Statistics.PerformanceExample | internal/service/statistics_strategy_test.go:183-193 | 50/100/150 likes give top 150, bottom 50, 3 posts and variance 5000/3. |
| Statistics.EmptyInputGivesZeros | internal/service/statistics_strategy.go:26-34 | Every strategy gives zeros on empty input. |
| VkService.Split | internal/service/vk_service.go:81 | `strings.Split` on `/` gives at least one part, and no part contains a slash. |
| VkService.JoinSplit | internal/service/vk_service.go:81 | Joining the parts with `/` gives back the input. |
| VkService.SplitJoin | internal/service/vk_service.go:81 | Splitting joined slash-free segments gives them back. |
| VkService.TrimPrefix | internal/service/vk_service.go:76-78 | When the prefix is present, the prefix followed by the result is the input. Otherwise the input is returned unchanged. |
| VkService.Contains | internal/service/vk_service.go:85 | A string with the searched text at its start contains it, and a containing string is at least as long as the text. |
| VkService.ContainsMeaning | internal/service/vk_service.go:85 | `strings.Contains` holds exactly when the text starts at some offset of the string. |
| VkService.StripScheme | internal/service/vk_service.go:76-78 | The trimmed link is a suffix of the link. |
| VkService.FirstUsable | internal/service/vk_service.go:84-92 | It gives the first non-empty part not containing `vk.com`, with every earlier part unusable. It gives None exactly when no part is usable. |
| VkService.ScreenNameOf | internal/service/vk_service.go:74-101 | A success is a non-empty, slash-free name free of `vk.com`. A failure is "could not extract". |
| VkService.ExtractGroupScreenName | internal/service/vk_service.go:74-101 | The loop with `continue`/`break` returns `ScreenNameOf(link)`. |
| VkService.ScreenNameRoundTrip | internal/service/vk_service.go:72-101 | `https://vk.com/n`, `http://…`, `https://www.…`, `www.…` and `vk.com/n` all resolve to `n`. |
| VkService.ScreenNameExamples | internal/service/vk_service.go:73 | The documented link formats resolve to the name. |
| VkService.ScreenNameRejectsEmpty | internal/service/vk_service.go:94-96 | The empty link is rejected. |
| VkService.ScreenNameRejectsBareHost | internal/service/vk_service.go:76-96 | `https://vk.com/` is rejected: its only segments are the host and the empty string. |
| VkService.StripSchemeBoth | internal/service/vk_service.go:76-78 | A scheme and then `www.` are both removed. |
| VkService.StripSchemeOnce | internal/service/vk_service.go:76-78 | `http://https://x` loses only the first scheme. |
| VkService.StripSchemeAfterWww | internal/service/vk_service.go:76-78 | A scheme after `www.` stays. |
| VkService.StripSchemeOnlyAtStart | internal/service/vk_service.go:76-78 | A prefix is removed only at the start of the link. |
| VkService.ValidScreenName | internal/service/vk_service.go:188-191 | The four-way alternation accepts exactly the non-empty strings over `[A-Za-z0-9_-]`. |
| VkService.PrefixedDigitsAreNameChars | internal/service/vk_service.go:188 | `club`, `public` or `-` followed by digits matches the first alternative. |
| VkService.ScreenNameCheckExamples | internal/service/vk_service.go:188-191 | `club123456`, `public42`, `-12345` and `my_group-1` pass. `my group` and `<script>` fail. |
| VkService.ClampCount | internal/service/vk_service.go:149-151 | The count sent is in [1, 100]. An in-range count is kept, and any other becomes 100. |
| VkService.GetGroupInfo | internal/service/vk_service.go:104-141 | No token means an error without a request. Success happens exactly when the body decodes with error code 0 and a non-empty response. The group's domain is the first item's screen name, with zero subscribers and zero time. An API error carries its message. |
| VkService.GetWallPosts | internal/service/vk_service.go:144-176 | No token means an error without a request. The request uses the clamped count. Success happens exactly when the body decodes with error code 0, and it returns the response items. |
| VkService.ParseOutcome | internal/service/vk_service.go:179-199 | Success happens exactly when a name is extracted, it matches the pattern and the lookup succeeds. An extraction error, and only that, is reported as an invalid link. A pattern failure, and only that, is reported as an invalid format. A success's domain is the first screen name the lookup returned. |
| VkService.ParseGroupFromLink | internal/service/vk_service.go:179-199 | The result is `ParseOutcome`: extract, then validate, then look up, with wrapped errors. |
| VkService.ParseStagesInOrder | internal/service/vk_service.go:179-199 | An extraction error skips validation and lookup. A pattern failure skips the lookup. A success came from looking up a valid extracted name. |
| Models.PostsOfMembers | internal/service/analytics_service.go:56 | A post is in a group's filter exactly when it is in the table with that group ID. Otherwise it is in the complement filter. |
| Models.PostsOf | internal/service/analytics_service.go:56 | The query `group_id = ?` returns at most as many rows as the table. Its members are characterised by `PostsOfMembers`. |
| Models.PostsNotOf | internal/transport/http/controller/group_controller.go:107 | The table after deleting a group's rows has at most as many rows as before. Its members are characterised by `PostsOfMembers`. |
| Models.PostsPartition | internal/transport/http/controller/group_controller.go:107 | A group's posts and the remaining posts together are the table as a multiset. |
| Models.PostsOfAfterDelete | internal/transport/http/controller/group_controller.go:107 | Deleting one group's posts leaves every other group's posts as they were. |
| Models.PostsNotOfIncreasing | internal/transport/http/controller/group_controller.go:107 | Deleting keeps the keys increasing along the table. |
| Models.PostsOfDeleted | internal/transport/http/controller/group_controller.go:107 | After the delete, the group has no posts. |
| Models.PostsNotOfTwice | internal/transport/http/controller/group_controller.go:107 | A second delete removes nothing more. |
| Models.StripIdsAppend | internal/transport/http/controller/group_controller.go:131 | Forgetting keys distributes over concatenation. |
| Analytics.CalculateGroupStat | internal/service/analytics_service.go:54-93 | The result equals `GroupStat(store, g, formatTime)`. |
| Analytics.PostTotals | internal/service/analytics_service.go:74-84 | The loop gives the like sum, the zero-seeded like maximum and the comment sum. |
| Analytics.FetchPosts | internal/service/analytics_service.go:55-58 | A failed post query yields no posts. The result has at most as many rows as the table. |
| Analytics.ParsedAtText | internal/service/analytics_service.go:60-63 | The zero time is shown as `-`. Any other time is shown as its formatting. |
| Statistics.Mean | internal/service/analytics_service.go:88-89 | The float quotient times the count is the total; it gives the report's averages and the performance variance. |
| Analytics.GroupStat | internal/service/analytics_service.go:54-93 | The stats copy the group's ID, domain and subscribers. The post count is the number of fetched posts. Last-week posts are 0. |
| Analytics.GroupStatMeaning | internal/service/analytics_service.go:54-93 | The stats copy the group's ID, domain and subscribers. Parse time is `-` for zero and formatted otherwise. The post count is the count of fetched posts. Likes, maximum and averages equal the aggregate strategy's on the same posts. Last-week posts are 0. |
| Analytics.NoPostsGivesZeros | internal/service/analytics_service.go:56-58 | With no posts, or a failed post query, the counts and averages are zero. |
| Analytics.PostQueryFailureIsolated | internal/service/analytics_service.go:56-58 | A failing post query changes only its own group's stats. |
| Analytics.GroupStatExample | internal/service/analytics_service_test.go:171-188 | The "varying" group gives 500 likes, 125.0 and 12.5 averages, and maximum 200. |
| Analytics.CalculateGroupStats | internal/service/analytics_service.go:38-51 | A listing failure gives an error and nothing else. Otherwise there is one entry per group in listing order, equal to `GroupStatsOf`. |
| Analytics.CalculateChartData | internal/service/analytics_service.go:96-115 | An error gives empty series. Otherwise the series are `ChartOf` the group stats. |
| Analytics.FillChart | internal/service/analytics_service.go:102-112 | The index-by-index array fill gives `ChartOf(stats)`. |
| Analytics.ChartOf | internal/service/analytics_service.go:102-112 | Each series has one entry per stats entry. Index i holds entry i's subscribers, average likes and average comments. |
| Analytics.ChartOfAt | internal/service/analytics_service.go:102-112 | Series of the right length with matching entries are the chart of the stats. |
| Analytics.ChartSeriesMeaning | internal/service/analytics_service.go:96-115 | Each series has one entry per group. Index i holds group i's subscribers and its average likes and comments. |
| TemplateData.RowsFor | internal/service/template_data_service.go:39-52 | There is one row per stat, in order, each showing the nine displayed fields. |
| TemplateData.PrepareGroupsForTemplate | internal/service/template_data_service.go:33-55 | An analytics error gives an error. Otherwise row i shows the displayed fields of group i's stats. |
| TemplateData.PrepareChartDataForTemplate | internal/service/template_data_service.go:58-69 | An error gives the empty value. Otherwise the three series are passed through unchanged. |
| Controller.FindByDomain | internal/transport/http/controller/group_controller.go:68 | A found index has that domain. None is returned exactly when no row has it. |
| Controller.FindByDomainUnique | internal/transport/http/controller/group_controller.go:68 | With unique domains, the lookup finds exactly the row that has the domain. |
| Controller.MergeNonZero | internal/transport/http/controller/group_controller.go:73 | An update from a struct writes only its non-zero fields and keeps the key. |
| Controller.MergeNonZeroIdempotent | internal/transport/http/controller/group_controller.go:73 | Writing the same struct twice is writing it once. |
| Controller.ParsedGroupShape | internal/service/vk_service.go:136-140 | A parsed group carries only the domain. |
| Controller.AddGroupStep | internal/transport/http/controller/group_controller.go:40-102 | A group is saved exactly when the link is non-empty, parsing succeeds and the store accepts the write. Anything else leaves the table and counter unchanged. A saved outcome carries the parsed domain. The table grows by at most one row and the counter by at most one. |
| Controller.AddRejectionsChangeNothing | internal/transport/http/controller/group_controller.go:52-86 | An empty link is rejected. Every rejected or failed request leaves the group table and counter unchanged. A parse error is reported as such. |
| Controller.AddExistingReusesId | internal/transport/http/controller/group_controller.go:66-79 | A known domain keeps its key. No row is added, and the table is unchanged. |
| Controller.AddNewAppendsFreshRow | internal/transport/http/controller/group_controller.go:80-88 | An unknown domain appends one row under a fresh key, with zero subscribers and the insert time. |
| Controller.AddKeepsTablesValid | internal/transport/http/controller/group_controller.go:66-88 | Every add keeps domains unique and keys increasing and below the counter. |
| Controller.AddGroupIdempotent | internal/transport/http/controller/group_controller.go:40-102 | Adding the same link twice gives the same outcome, table and counter as adding it once. |
| Controller.ToPost | internal/transport/http/controller/group_controller.go:120-128 | A stored post has the group's ID, the item's counts, text and formatted date, and reactions equal to likes. |
| Controller.SavedPosts | internal/transport/http/controller/group_controller.go:119-135 | The insert loop stores at most one row per item. |
| Controller.SavedPostsKeys | internal/transport/http/controller/group_controller.go:119-135 | Every inserted row belongs to the group and takes the next consecutive key. |
| Controller.SavedPostsOrigin | internal/transport/http/controller/group_controller.go:119-135 | Every inserted row is converted from an item whose insert was not refused. |
| Controller.SavedPostsAll | internal/transport/http/controller/group_controller.go:119-135 | With no refused insert, every item is stored, in order. |
| Controller.AcceptedItems | internal/transport/http/controller/group_controller.go:119-135 | The items whose insert is not refused are at most the items. |
| Controller.SavedPostsComplete | internal/transport/http/controller/group_controller.go:119-135 | A refused insert is skipped and the loop continues: every item whose insert is not refused is stored, with its converted row, whatever failed before it. |
| Controller.SavedPostsInOrder | internal/transport/http/controller/group_controller.go:119-135 | The stored rows are exactly the accepted items, in wall order, converted with consecutive keys from the first key. |
| Controller.SavedPostsIdsIrrelevant | internal/transport/http/controller/group_controller.go:119-135 | Up to keys, the stored rows do not depend on the first key handed out. |
| Controller.RefreshStepOf | internal/transport/http/controller/group_controller.go:105-138 | A refused delete, and only that, reports `DeleteFailed` and changes nothing. The refresh succeeds exactly when the delete and the fetch succeed. Unless the delete is refused, the other groups' rows come first and unchanged. The counter advances by the number of rows added. |
| Controller.RefreshTouchesOnlyItsGroup | internal/transport/http/controller/group_controller.go:105-138 | Other groups' posts are unchanged, whatever fails. |
| Controller.RefreshReplacesGroupPosts | internal/transport/http/controller/group_controller.go:105-138 | A refused delete changes nothing. A failed fetch leaves the group with no posts. Otherwise the group's posts are exactly the inserted ones. |
| Controller.RefreshKeepsTablesValid | internal/transport/http/controller/group_controller.go:105-138 | Post keys stay increasing and below the counter, and the counter never decreases. |
| Controller.RefreshTwiceSameContents | internal/transport/http/controller/group_controller.go:105-138 | Refreshing twice from the same wall stores the same rows as refreshing once, up to keys. |
| Controller.GroupController.constructor | internal/transport/http/controller/group_controller.go:35-37 | The new controller has empty tables and satisfies the invariant. |
| Controller.GroupController.AddGroup | internal/transport/http/controller/group_controller.go:40-102 | The outcome and new group table are `AddGroupStep` of the old table. The posts are untouched, and the invariant is kept. |
| Controller.GroupController.FetchAndSaveWallPosts | internal/transport/http/controller/group_controller.go:105-138 | The error and new post table are `RefreshStepOf` of the old table. The groups are untouched, and the invariant is kept. |

## Refresh and update semantics

Three behaviours of the code are easy to misread:

- **Post refresh.** The code does not do a deduplicating insert keyed by group, date
  and text. It deletes all of the group's posts and then inserts every fetched item.
  `RefreshStepOf` models the delete-then-insert.
- **Failed refresh.** The delete runs before the fetch, so a failed fetch leaves the
  group with no posts, not with its old ones (`Controller.RefreshReplacesGroupPosts`).
- **Updating a known group.** The code writes the parsed struct with gorm's `Updates`.
  That call skips zero-valued fields, so it does not refresh the subscriber count or the
  timestamp. `GetGroupInfo` sets only the domain, so the row stays as it was
  (`Controller.AddExistingReusesId`).

## Left out

- HTTP handling, JSON request and response bodies, and status codes are not modelled.
  `AddOutcome` names the responses.
- The VK HTTP requests are not modelled. They become the `lookup` and `wall` parameters.
- The goroutine that runs the refresh after `AddGroup` is not modelled. The model's
  caller runs `FetchAndSaveWallPosts` after a `Saved` outcome, sequentially, so
  overlapping refreshes of one group are not captured.
- The database is not modelled. It becomes the controller's two `seq` fields and the
  analytics `Store` value:
  - store errors are explicit inputs;
  - a failing domain lookup is not modelled (it would be read as "not found");
  - keys come from a monotone counter, so key reuse by the database is not modelled;
  - references from posts to groups are not checked;
  - query results come back in table order.
- float64 is modelled as exact real numbers, so rounding is not captured.
  Go's `int` is unbounded here, so 64-bit overflow of sums and squares is not captured.
- Time formatting (`2006-01-02`, `2006-01-02 15:04`) is not modelled. It becomes the
  function parameters `formatTime` and `formatDate`.
- Strings are sequences of characters, not UTF-8 bytes.
- Logging and printing are not modelled: the `log.Printf` calls when a post query, a
  fetch, a delete or an insert fails, and the `fmt.Println` of the request and of the
  screen name. They have no effect on the tables or the results.
- The regular expression is modelled as predicates for its four alternatives, not as a
  general regex engine.
- `PostsLastWeek` is always 0, as in the code.
- Configuration, wiring, routing, templates and the trip models are outside the core.
