# Search-index configurator panels, modelled in Dafny

The configurator is a set of admin screens for a hosted search service. Each
screen keeps a few pieces of view state, calls the service's REST API when the
operator presses a button, and turns the answer into what it shows:

- **Index records** (`records.dfy`): browse the records of an index, narrow
  them with a case-insensitive search over name, object ID, product type and
  category labels, delete a record, and derive the base path of the screen's
  links from the current URL.
- **Index logs** (`usage.dfy`, `paging.dfy`, `logs.dfy`, `channel_logs.dfy`):
  merge the daily usage series into one row per sample of the `records`
  series, with that timestamp's add, delete and browse counts. The top-level
  copy also turns the search-API log into table rows with generated ids and
  shows both tables page by page. The channels copy stores the log as
  returned and does not paginate.
- **Update configuration** (`settings.dfy`): fetch an index's settings and
  replace them with operator-typed JSON, with one error message per kind of
  failure.
- **Analytics** (`analytics.dfy`): four counter calls combined into one
  display, all or nothing.

Shared pieces: `common.dfy` (optional values, the outcome of one HTTP call,
the messages a screen can show) and `text.dfy` (JavaScript's ASCII
`toLowerCase`, `indexOf`/`includes`, and the decimal text of a number).

Every screen is a `class` whose fields are its `useState` slots and whose
methods are its event handlers. An HTTP call is not made: its outcome is a
parameter (`Response<T>`, either the body or a `Fault`), so each handler is
specified for every answer the service can give. Where a handler computes a
value, the value is a function with its own contract and lemmas (the filter,
the usage merge, the page window, the settings steps, the analytics outcome),
and the method is proved to produce exactly that function's result.

The repository holds two copies of most screens (top level and under
`components/channels`). The update-configuration and analytics copies have
identical handlers and share one model; the table cites both copies. The
records copies differ in three ways. Submitting the search box refetches in
the top-level copy (`FetchRecords`) and re-filters in the channels copy
(`SubmitSearch`). Only the top-level copy derives a base path from the
current URL (`BasePath`). Only the top-level copy disables its fetch button
while the index name is empty. The logs copies
differ in error texts, id generation and paging, so each has its own class.

Four behaviours of the code are easy to misread:

- The analytics calls are awaited one after another. They are not sent in
  parallel, so a failure stops the calls after it (`Analytics.CallsSent`).
  The outcome is still all or nothing.
- Fetching settings with an empty index name shows the general error. It
  does not show the missing-fields text: that `Error` is thrown inside the
  `try`, and the `catch` only tells axios errors apart from all others.
- The usage merge emits one row per sample of the `records` series only; a
  timestamp present only in an operation series gives no row
  (`Usage.UsageRowsSpec`).
- A usage answer missing one of the four series is not read as an empty
  series: reading it throws inside the `try`, so the rows are emptied and the
  fetch error is shown (`Usage.WellFormed`).

## Model

| member | source | states |
|---|---|---|
| Text.LowerChar | merchant-center-custom-application/my-new-custom-application-project/src/components/index-records/index-records.tsx:69 | an upper-case ASCII letter becomes the lower-case letter at the same place in the alphabet; every other character is unchanged |
| Text.Lower | merchant-center-custom-application/my-new-custom-application-project/src/components/index-records/index-records.tsx:69 | `toLowerCase` keeps the length and lower-cases each character in place |
| Text.LowerCharEqual | merchant-center-custom-application/my-new-custom-application-project/src/components/index-records/index-records.tsx:69-74 | two characters lower-case to the same one iff they are equal or one ASCII letter in its two cases |
| Text.LowerIdempotent | merchant-center-custom-application/my-new-custom-application-project/src/components/index-records/index-records.tsx:69 | lower-casing an already lower-cased text changes nothing |
| Text.IndexOf | merchant-center-custom-application/my-new-custom-application-project/src/components/index-records/index-records.tsx:37 | `indexOf`: Some(k) only where the pattern occurs at k and at no earlier position; None only where it occurs nowhere |
| Text.IndexOfFirst | merchant-center-custom-application/my-new-custom-application-project/src/components/index-records/index-records.tsx:37 | an occurrence with no earlier one is the position IndexOf reports |
| Text.Includes | merchant-center-custom-application/my-new-custom-application-project/src/components/index-records/index-records.tsx:71-74 | `includes` holds iff the pattern occurs at some position |
| Text.IncludesEmpty | merchant-center-custom-application/my-new-custom-application-project/src/components/index-records/index-records.tsx:71 | every string includes the empty term |
| Text.NatToString | merchant-center-custom-application/my-new-custom-application-project/src/components/index-logs/index-logs.tsx:109 | the decimal text of a position: non-empty, digits only, no leading zero unless it is 0, and it reads back as the position |
| Text.NatToStringInjective | merchant-center-custom-application/my-new-custom-application-project/src/components/index-logs/index-logs.tsx:109 | different positions never have the same decimal text |
| Records.Matches | merchant-center-custom-application/my-new-custom-application-project/src/components/index-records/index-records.tsx:68-75 | the search predicate; the empty term matches every record and a record's own object ID finds it |
| Records.MatchesIgnoresCase | merchant-center-custom-application/my-new-custom-application-project/src/components/index-records/index-records.tsx:69 | a term and its lower-cased form match the same records |
| Records.FilterRecords | merchant-center-custom-application/my-new-custom-application-project/src/components/index-records/index-records.tsx:68-77 | the filtered list is no longer than the records and holds only fetched records that match |
| Records.FilterSelectsMatches | merchant-center-custom-application/my-new-custom-application-project/src/components/index-records/index-records.tsx:68-76 | the filtered list is the subsequence of the records, in their order, made of exactly the records that match the lower-cased term in name, objectID, product type or a category |
| Records.FilterMembership | merchant-center-custom-application/my-new-custom-application-project/src/components/channels/index-records.tsx:62-70 | a record is in the filtered list if and only if it is a fetched record that matches |
| Records.FilterEmptyTerm | merchant-center-custom-application/my-new-custom-application-project/src/components/index-records/index-records.tsx:84-86 | after the search is reset to the empty term the filter keeps every record in order |
| Records.FilterIdempotent | merchant-center-custom-application/my-new-custom-application-project/src/components/channels/index-records.tsx:100-108 | filtering an already filtered list with the same term changes nothing |
| Records.BasePath | merchant-center-custom-application/my-new-custom-application-project/src/components/index-records/index-records.tsx:37 | the base path is a prefix of the URL: the whole URL when `/index-records` does not occur, else the part before it, with no occurrence starting earlier (the first one) |
| Records.BasePathOfJoin | merchant-center-custom-application/my-new-custom-application-project/src/components/index-records/index-records.tsx:36-37 | for a URL `base + /index-records + rest` whose base has no such segment, the base path is exactly `base` |
| Records.RecordsScreen.constructor | merchant-center-custom-application/my-new-custom-application-project/src/components/index-records/index-records.tsx:40-44 | all five slots start empty, and the filtered list is the filter of the (empty) records |
| Records.RecordsScreen.EditIndexName | merchant-center-custom-application/my-new-custom-application-project/src/components/index-records/index-records.tsx:147 | only the index name changes |
| Records.RecordsScreen.SearchChange | merchant-center-custom-application/my-new-custom-application-project/src/components/index-records/index-records.tsx:80-86 | change and reset set only the search term |
| Records.RecordsScreen.ApplyFilterEffect | merchant-center-custom-application/my-new-custom-application-project/src/components/index-records/index-records.tsx:67-78 | the filtered list becomes the filter of the records by the term; nothing else changes |
| Records.RecordsScreen.FetchRecords | merchant-center-custom-application/my-new-custom-application-project/src/components/index-records/index-records.tsx:46-65 | success stores the hits in both lists and clears the error; any failure sets the fetch error and empties both lists |
| Records.RecordsScreen.DeleteRecord | merchant-center-custom-application/my-new-custom-application-project/src/components/index-records/index-records.tsx:88-103 | a failed delete sets only the delete error; a successful one refetches; after a successful delete and a refetch that no longer holds the id, no stored record has it |
| Records.RecordsScreen.SubmitSearch | merchant-center-custom-application/my-new-custom-application-project/src/components/channels/index-records.tsx:99-109 | the channels submit re-filters, leaves the screen settled, and on a settled screen changes nothing |
| Usage.Day | merchant-center-custom-application/my-new-custom-application-project/src/components/index-logs/index-logs.tsx:81 | the day of a timestamp is the one whose first millisecond is at or before it and whose successor's is after it |
| Usage.SeriesMapLastWins | merchant-center-custom-application/my-new-custom-application-project/src/components/index-logs/index-logs.tsx:68-78 | after `forEach(set)` the map holds exactly the series' timestamps, each with the value of its last sample |
| Usage.SeriesMap | merchant-center-custom-application/my-new-custom-application-project/src/components/index-logs/index-logs.tsx:68-78 | every timestamp of the series is a key, and the last sample's timestamp holds the last sample's value |
| Usage.ValueAt | merchant-center-custom-application/my-new-custom-application-project/src/components/index-logs/index-logs.tsx:83-85 | `m.get(t)`, else 0: the stored count for a timestamp present in the map, 0 for one absent |
| Usage.SeriesValueAt | merchant-center-custom-application/my-new-custom-application-project/src/components/index-logs/index-logs.tsx:83-85 | `m.get(t)`, else 0 is the last value at t, or 0 when the series has no sample at t |
| Usage.CollectSeries | merchant-center-custom-application/my-new-custom-application-project/src/components/channels/index-logs.tsx:63-73 | the loop leaves the map the series determines |
| Usage.MergeRows | merchant-center-custom-application/my-new-custom-application-project/src/components/index-logs/index-logs.tsx:80-86 | one row per records sample |
| Usage.WellFormed | merchant-center-custom-application/my-new-custom-application-project/src/components/index-logs/index-logs.tsx:68-81 | the conditions under which the merge does not throw; then every row's day lies within the valid date range of +-100,000,000 days |
| Usage.UsageRows | merchant-center-custom-application/my-new-custom-application-project/src/components/index-logs/index-logs.tsx:64-89 | the merge yields rows iff the body is well formed, one per records sample with its day and value |
| Usage.UsageRowsSpec | merchant-center-custom-application/my-new-custom-application-project/src/components/index-logs/index-logs.tsx:64-89 | the merge fails exactly on a body missing a series or holding an invalid date; otherwise row i carries the day and value of records sample i and each operation count is that series' last value at the same timestamp, or 0 |
| Usage.LaterSampleWins | merchant-center-custom-application/my-new-custom-application-project/src/components/channels/index-logs.tsx:63-65 | of two samples at one timestamp the later one is used |
| Usage.MergeExample | merchant-center-custom-application/my-new-custom-application-project/src/components/channels/index-logs.tsx:76-82 | a records sample with an add and a browse sample at its timestamp and no delete sample gives the counts 5, 0, 2 |
| Usage.BuildUsageRows | merchant-center-custom-application/my-new-custom-application-project/src/components/index-logs/index-logs.tsx:64-86 | the maps and rows built step by step are UsageRows of the body |
| Paging.ClampIndex | merchant-center-custom-application/my-new-custom-application-project/src/components/index-logs/index-logs.tsx:125 | a slice bound counts back from the end when negative and is clamped to the list |
| Paging.JsSlice | merchant-center-custom-application/my-new-custom-application-project/src/components/index-logs/index-logs.tsx:125 | a slice is never longer than the list |
| Paging.PageOf | merchant-center-custom-application/my-new-custom-application-project/src/components/index-logs/index-logs.tsx:123-129 | a page holds only rows of the list and, for a page from 1, at most the page size |
| Paging.PageWindow | merchant-center-custom-application/my-new-custom-application-project/src/components/index-logs/index-logs.tsx:123-129 | page p (from 1) is the window [(p-1)*n, p*n) cut to the list, has at most n rows, and is empty once it starts past the end |
| Paging.FirstPage | merchant-center-custom-application/my-new-custom-application-project/src/components/index-logs/index-logs.tsx:131-139 | page 1 is the first n rows, or all rows when fewer |
| Paging.PageExamples | merchant-center-custom-application/my-new-custom-application-project/src/components/index-logs/index-logs.tsx:37 | with 10 rows per page, 25 rows give rows 0-9 on page 1 and rows 20-24 on page 3 |
| IndexLogs.SearchLogIdsDistinct | merchant-center-custom-application/my-new-custom-application-project/src/components/index-logs/index-logs.tsx:109 | ids built for different positions differ, whatever the methods |
| IndexLogs.SearchLogId | merchant-center-custom-application/my-new-custom-application-project/src/components/index-logs/index-logs.tsx:109 | the id is the method, a dash, then the position's decimal digits |
| IndexLogs.FormatSearchLogs | merchant-center-custom-application/my-new-custom-application-project/src/components/index-logs/index-logs.tsx:108-113 | one row per log entry carrying its method, url and answer code, with id `method-position` for its position |
| IndexLogs.FormattedIdsDistinct | merchant-center-custom-application/my-new-custom-application-project/src/components/index-logs/index-logs.tsx:108-109 | the generated row ids are unique within one response |
| IndexLogs.SearchLogRows | merchant-center-custom-application/my-new-custom-application-project/src/components/index-logs/index-logs.tsx:108-115 | rows exist iff the body has `logs`; then one row per entry and all ids are distinct |
| IndexLogs.LogsScreen.constructor | merchant-center-custom-application/my-new-custom-application-project/src/components/index-logs/index-logs.tsx:30-40 | empty lists, no error, page 1 and 10 rows per page for both tables |
| IndexLogs.LogsScreen.EditIndex | merchant-center-custom-application/my-new-custom-application-project/src/components/index-logs/index-logs.tsx:170 | only the index changes |
| IndexLogs.LogsScreen.CurrentUsageLogs | merchant-center-custom-application/my-new-custom-application-project/src/components/index-logs/index-logs.tsx:123-125 | the usage rows shown are stored rows, at most the page size of them |
| IndexLogs.LogsScreen.CurrentSearchLogs | merchant-center-custom-application/my-new-custom-application-project/src/components/index-logs/index-logs.tsx:127-129 | the search rows shown are stored rows, at most the page size of them |
| IndexLogs.LogsScreen.FetchLogs | merchant-center-custom-application/my-new-custom-application-project/src/components/index-logs/index-logs.tsx:42-94 | an empty index sets the index-required error and sends nothing; a well-formed answer stores the merged rows and clears the error; any other outcome empties the rows with the fetch error |
| IndexLogs.LogsScreen.FetchSearchLogs | merchant-center-custom-application/my-new-custom-application-project/src/components/index-logs/index-logs.tsx:96-121 | success stores the formatted rows and clears the error; any failure empties them with the fetch error |
| IndexLogs.LogsScreen.PageChangeUsage | merchant-center-custom-application/my-new-custom-application-project/src/components/index-logs/index-logs.tsx:194 | the usage page becomes the chosen page |
| IndexLogs.LogsScreen.PageChangeSearch | merchant-center-custom-application/my-new-custom-application-project/src/components/index-logs/index-logs.tsx:206 | the search page becomes the chosen page |
| IndexLogs.LogsScreen.PerPageChangeUsage | merchant-center-custom-application/my-new-custom-application-project/src/components/index-logs/index-logs.tsx:131-134 | new page size, back to page 1, which then shows the first rows |
| IndexLogs.LogsScreen.PerPageChangeSearch | merchant-center-custom-application/my-new-custom-application-project/src/components/index-logs/index-logs.tsx:136-139 | new page size, back to page 1, which then shows the first rows |
| ChannelLogs.ErrorText | merchant-center-custom-application/my-new-custom-application-project/src/components/channels/index-logs.tsx:86-91 | a server message is shown when an axios error carries a response with a non-empty message, the fetch error text otherwise |
| ChannelLogs.ErrorTextFromServer | merchant-center-custom-application/my-new-custom-application-project/src/components/channels/index-logs.tsx:110-115 | a server text is shown exactly when the failure carries that non-empty text |
| ChannelLogs.ChannelLogsScreen.constructor | merchant-center-custom-application/my-new-custom-application-project/src/components/channels/index-logs.tsx:25-28 | empty lists and no error |
| ChannelLogs.ChannelLogsScreen.EditIndex | merchant-center-custom-application/my-new-custom-application-project/src/components/channels/index-logs.tsx:131 | only the index changes |
| ChannelLogs.ChannelLogsScreen.FetchLogs | merchant-center-custom-application/my-new-custom-application-project/src/components/channels/index-logs.tsx:35-94 | an empty index sends nothing; success stores the merged rows; a failed call shows ErrorText of its fault; a malformed body shows the fetch error; failures empty the rows |
| ChannelLogs.ChannelLogsScreen.FetchSearchLogs | merchant-center-custom-application/my-new-custom-application-project/src/components/channels/index-logs.tsx:96-118 | success stores the returned logs unchanged; failure empties them with ErrorText of the fault |
| UpdateConfiguration.FetchSettingsStep | merchant-center-custom-application/my-new-custom-application-project/src/components/update-configuration/update-configuration.tsx:22-50 | exactly one of error and success is set; the general error iff the name is empty, the fetch error iff a named request failed; success stores the returned settings; an error clears them |
| UpdateConfiguration.UpdateRequest | merchant-center-custom-application/my-new-custom-application-project/src/components/update-configuration/update-configuration.tsx:54-70 | a PUT is sent iff both inputs are non-empty and the config parses, and it carries the parsed config |
| UpdateConfiguration.UpdateStep | merchant-center-custom-application/my-new-custom-application-project/src/components/update-configuration/update-configuration.tsx:52-87 | exactly one of error and success is set; general, invalid-JSON and update-failed errors each arise exactly in their own case; success clears both inputs and the settings; failures keep them |
| UpdateConfiguration.FetchAfterUpdate | merchant-center-custom-application/my-new-custom-application-project/src/components/channels/update-configuration.tsx:69-73 | after a successful update the name is empty, so an immediate fetch ends in the general error |
| UpdateConfiguration.SettingsScreen.constructor | merchant-center-custom-application/my-new-custom-application-project/src/components/update-configuration/update-configuration.tsx:16-20 | all five slots start empty |
| UpdateConfiguration.SettingsScreen.EditIndexName | merchant-center-custom-application/my-new-custom-application-project/src/components/update-configuration/update-configuration.tsx:104 | only the name changes |
| UpdateConfiguration.SettingsScreen.EditIndexConfig | merchant-center-custom-application/my-new-custom-application-project/src/components/update-configuration/update-configuration.tsx:131 | only the config text changes |
| UpdateConfiguration.SettingsScreen.HandleFetchSettings | merchant-center-custom-application/my-new-custom-application-project/src/components/channels/update-configuration.tsx:19-47 | the new slots are FetchSettingsStep of the old ones; a request is sent iff the name is non-empty |
| UpdateConfiguration.SettingsScreen.HandleUpdate | merchant-center-custom-application/my-new-custom-application-project/src/components/update-configuration/update-configuration.tsx:52-87 | the new slots are UpdateStep of the old ones; the PUT sent is UpdateRequest of the old slots |
| Analytics.CallsSent | merchant-center-custom-application/my-new-custom-application-project/src/components/analytics/analytics.tsx:32-50 | the calls go out in the fixed order and stop after the first failure: users iff searches succeeded, no-result rate iff both succeeded, top searches iff the first three succeeded |
| Analytics.AnalyticsOutcome | merchant-center-custom-application/my-new-custom-application-project/src/components/analytics/analytics.tsx:52-69 | no error iff all four calls succeed; then the counters come from the three bodies and the top searches are the array or empty; on any failure the data is cleared, the list emptied and the fetch error set |
| Analytics.ShownOnlyAfterAllCalls | merchant-center-custom-application/my-new-custom-application-project/src/components/channels/analytics.tsx:31-73 | data is shown only after all four calls succeeded; a failing last call discards the three counters already received |
| Analytics.DisplayedCount | merchant-center-custom-application/my-new-custom-application-project/src/components/analytics/analytics.tsx:103-104 | an undefined counter is shown as 0, a defined one as is |
| Analytics.DisplayedRate | merchant-center-custom-application/my-new-custom-application-project/src/components/channels/analytics.tsx:102 | an undefined no-result rate is shown as 0, a defined one as is |
| Analytics.AnalyticsScreen.constructor | merchant-center-custom-application/my-new-custom-application-project/src/components/analytics/analytics.tsx:16-19 | empty name, no data, no top searches, no error |
| Analytics.AnalyticsScreen.EditIndexName | merchant-center-custom-application/my-new-custom-application-project/src/components/analytics/analytics.tsx:87 | only the name changes |
| Analytics.AnalyticsScreen.FetchAnalyticsData | merchant-center-custom-application/my-new-custom-application-project/src/components/channels/analytics.tsx:18-74 | the new slots are AnalyticsOutcome of the four answers, whatever they were before; the calls sent are CallsSent |
| Analytics.AnalyticsScreen.ResetAfterFailure | merchant-center-custom-application/my-new-custom-application-project/src/components/analytics/analytics.tsx:65-69 | the catch block clears the data and the list and sets the fetch error |

## Left out

- HTTP details: URLs, query strings, headers, API keys and the fixed start date are not modelled; each call is one `Response` parameter.
- Error texts are constructors of `Message`; the intl message tables, their ids and translations are not modelled.
- JSON: `JSON.parse` is a parameter `string -> Option<Settings>`; the JSON grammar, `JSON.stringify` of the shown settings and the settings' own structure are not modelled.
- Usage.Day: the row keeps the UTC day number of the timestamp; formatting it as `YYYY-MM-DD` text is not modelled.
- Text.Lower: lower-cases ASCII letters only; JavaScript's full Unicode case mapping is not modelled.
- Numbers are unbounded integers (counts, timestamps, positions) and reals (the no-result rate); JavaScript's floating-point numbers, NaN and fractional timestamps are not modelled.
- Records.RecordsScreen.FetchRecords: a browse answer without a `hits` array is not modelled; the source then stores `undefined` and the screen fails while rendering, which is outside the handler.
- ChannelLogs.ChannelLogsScreen.FetchSearchLogs: an answer without a `logs` array is not modelled, for the same reason.
- ChannelLogs.ErrorText: a server `message` that is not a string, or another falsy value, is not modelled; a missing or empty message falls back to the default text.
- ChannelLogs.ChannelLogsScreen.FetchLogs, ChannelLogs.ChannelLogsScreen.FetchSearchLogs: an axios error whose response body is JSON `null` is not modelled. There, reading `err.response.data.message` throws inside the `catch`, so neither the error nor the list is set and the screen keeps its previous state. The model treats it as a response without a message: the default text is shown and the list is emptied.
- Records.Matches: records whose `name`, `productType` or `categories` are missing (the source would throw inside the filter) are not modelled; every record has the four fields.
- Analytics.AnalyticsOutcome: a null or missing response body, on which reading `count`, `noResultRate` or `searches` throws, is not modelled. Any other body that lacks the field, a string or number included, reads it as `undefined`; that is the `None` case, shown as 0.
- IndexLogs.LogsScreen.PageChangeUsage, IndexLogs.LogsScreen.PageChangeSearch: any page number is accepted; the pagination widget only offers pages from 1, and the page-window lemmas assume that.
- React scheduling: state updates apply at once and in order; batching, re-renders, and the filter effect running after every change of `records` or `searchTerm` are modelled as an explicit call of `ApplyFilterEffect`.
- Concurrency: handlers run one at a time to completion; overlapping requests from repeated clicks are not modelled.
- Records.RecordsScreen.FetchRecords: the top-level fetch button is disabled while the index name is empty, so no browse call is made then; the model does not include that guard and specifies the handler for every name, which is how the always-enabled channels button behaves.
- Rendering (cards, tables, pagination widget, collapsibles, notifications), routing, lazy loading of screens, application config, constants and `console.log` are not modelled.
