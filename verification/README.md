# OpsGenie alert export, modelled in Dafny

This project models the command-line tool that exports OpsGenie alerts to a spreadsheet.
It covers four parts:

- the API client (`OpsGenieClient`): the authentication header, the offset paginator of
  `get_alerts` with its error path, and the detail-plus-logs merge of `get_alert_details`;
- the row builder (`process_alerts` and `format_timestamp`): field copying, the audit-log
  scan for the acknowledged/assigned/closed pairs, the owner fallback and the column order;
- the column-width rule of `create_excel_file`;
- the flow of `main`: the search parameters, the detail loop and the early returns.

The remote API is a set of three oracles from requests to replies. So every server that
answers each request the same way is covered, including servers that never stop paging. Python dicts decoded from JSON are a
`Json` datatype with Python truthiness. `dateutil` and the conversion of a table value into a
sheet cell are function parameters.

The paginator is modelled as the code has it. It is a plain offset paginator: no cursor, no
splitting of the date range, no concurrency and no cap on the result. `--limit` is only the
page size. The loop ends on the first empty, missing or short page, and otherwise fetches
everything the server holds. `Pagination.StoreIsFetchedWhole` and
`Pagination.ResultMayExceedLimit` state this.

One quirk of the error path is modelled as written. When `requests.get` raises on a later
page, `response` still names the previous page's response. The exception text then uses that
earlier body's `message` member, if it had one (`Gateway.ErrorReason`,
`Pagination.PaginateEndsAtLastReply`).

Modules:

- `Wrappers`: `Option` and `Result`.
- `Json`: decoded values and Python truthiness.
- `Gateway`: `opsgenie_client.py`. It includes `Paginate`, a reference definition of the page
  loop with a fuel bound, and `GetAlerts`/`Pages`, the loop itself, proved equal to it.
- `Pagination`: whole-run properties of the paginator. These cover when it stops, what a
  failure reports, what a server backed by a finite store gives, and why the loop needs a
  server that eventually sends a short page.
- `DataProcessor`: `data_processor.py`.
- `ExcelExporter`: the width rule of `excel_exporter.py`.
- `FetchAlerts`: `main` of `fetch_alerts.py`.

## Model

| member | source | states |
|---|---|---|
| Gateway.Describe | opsgenie_client.py:74-83 | The raised message always starts with "Failed to fetch alerts: ". When the reason is a string, the rest of the message is exactly that string. |
| Gateway.WithDefaultLimit | opsgenie_client.py:38-44 | A missing dict becomes an empty one, and `limit` becomes 100 only when absent. A given `limit` is kept. Every other key is unchanged, and no key is added or dropped. |
| Gateway.GetAlerts | opsgenie_client.py:25-85 | A dict the caller passed is handed back as updated in place: `limit` added when absent, nothing else changed (`Gateway.WithDefaultLimit`). Paging uses that dict. It sends at least one request, and its result and requests are exactly the reference run. Each request asks for the page just past the alerts received so far, starting at offset 0. On success the result is every page received, in request order. |
| Gateway.Pages | opsgenie_client.py:47-85 | The while loop computes exactly the reference run: the same result, and the same requests in the same order. On success, the result is the concatenation of the pages received. |
| Gateway.PaginateDeterministic | opsgenie_client.py:47-85 | Two runs of the reference loop that both finish, with whatever request budget, describe the same exchange. So "the run" of a halting server is well defined. |
| Gateway.PaginateFollows | opsgenie_client.py:50-68 | Each request of a finished run asks for the page just past the alerts received so far. The offset moves by exactly the length of each page. |
| Gateway.FollowsAt | opsgenie_client.py:51-52 | In such a run, request k carries `offset` = the starting offset plus the alerts received in reply to requests 0..k-1. |
| Gateway.FollowsEverywhere | opsgenie_client.py:51-52 | In a run that follows the offsets from 0, request k asks for offset = the number of alerts received in reply to requests 0..k-1. |
| Gateway.CollectedLength | opsgenie_client.py:60-68 | The offset the loop keeps is the number of alerts it has collected so far. |
| Gateway.PaginateCollects | opsgenie_client.py:60-62 | A successful run returns the alerts of every reply joined in request order. Nothing is dropped, duplicated or reordered. |
| Gateway.GetAlertDetails | opsgenie_client.py:87-119 | It sends the detail request first and the logs request only if the detail request succeeded. Both carry the client's headers. The result is present iff both succeed. It is then the detail record with `logs` added and every other key kept. A present result is truthy, so `if detail:` in the caller means success. |
| Pagination.PaginateContinuesOnFullPages | opsgenie_client.py:60-72 | Every reply before the last is a non-empty page at least `limit` long. The loop goes on only past full pages. |
| Pagination.PaginateEndsAtLastReply | opsgenie_client.py:54-83 | The run fails iff its last reply is not a page. The failure's reason is the error body's `message`, else the exception text. After a transport failure it is the previous reply's `message` instead, if that reply had one. On success the last page is empty, missing or shorter than `limit`. |
| Pagination.StoreIsFetchedWhole | opsgenie_client.py:47-85 | A server serving slices of a finite store lets the loop finish. It returns the whole store, after `|store| / limit + 1` requests. |
| Pagination.ExactMultipleCostsAnEmptyPage | opsgenie_client.py:60-72 | When the store size is a multiple of `limit`, the last request asks for offset `|store|` and gets an empty page. |
| Pagination.ResultMayExceedLimit | opsgenie_client.py:65-68 | With more than `limit` alerts on the server, the result is longer than `limit`: `limit` is a page size, not a cap. |
| Pagination.FullPagesDoNotHalt | opsgenie_client.py:50-72 | Suppose a server answers every offset with a non-empty page at least `limit` long. Then the loop never ends: no request budget lets it finish. |
| DataProcessor.FormatTimestamp | data_processor.py:89-106 | A falsy value gives `''`. A string that parses gives its formatted text. Any other value, including an unparseable string or a non-string, is returned unchanged. |
| DataProcessor.ScanStep | data_processor.py:45-63 | One log entry changes at most the pair of its own type, and never a pair whose owner is already truthy. Otherwise it writes its owner and its formatted `createdAt` there. |
| DataProcessor.ScanKeepsLocked | data_processor.py:51-63 | Once a pair's owner is truthy, the rest of the logs leave that pair unchanged. |
| DataProcessor.ScanFirstClaimWins | data_processor.py:45-63 | The first entry of a type whose owner is truthy decides that type's pair for good: its owner and its formatted time. |
| DataProcessor.ScanSeesOnlyItsAction | data_processor.py:45-63 | A pair depends only on the log entries of its own type. Removing all other entries leaves it unchanged. |
| DataProcessor.ScanWithoutClaim | data_processor.py:45-63 | If no entry of a type has a truthy owner, each such entry overwrites the pair. The pair ends as the last of them wrote it, or untouched when there are none. |
| DataProcessor.ScanStaysUnclaimed | data_processor.py:45-63 | Without an entry of a type with a truthy owner, that pair's owner stays falsy. |
| DataProcessor.RowCopiesField | data_processor.py:24-32 | Each plain column (ID, alias, message, description, status, priority, source) holds the alert's field, or `''` when the key is missing. |
| DataProcessor.RowFormatsTimestamp | data_processor.py:30-31 | `Created At` and `Updated At` hold the formatted field, or `''` when the key is missing. |
| DataProcessor.RowJoinsTags | data_processor.py:40 | `Tags` is the tags in order with ", " between each two. Each tag stands at its position, followed by ", " unless it is the last, and the length (total tag length plus two per separator) leaves no other characters. It is `''` without tags and the tag itself with one. |
| DataProcessor.JoinLength | data_processor.py:40 | A joined text is as long as all parts plus one separator between each two. |
| DataProcessor.JoinPlacesPart | data_processor.py:40 | Part i stands in the joined text right after parts 0..i-1 and i separators. |
| DataProcessor.JoinPlacesSeparator | data_processor.py:40 | Every part but the last is followed directly by the separator. |
| DataProcessor.RowReadsIntegration | data_processor.py:39 | `Integration` holds the integration's `name` (or `''`) when `integration` is truthy, and `''` otherwise. |
| DataProcessor.RowTakesFirstClaim | data_processor.py:44-67 | The first log entry of a type whose owner is truthy fills that row pair with its owner and formatted time. The alert's own `owner` does not override it. |
| DataProcessor.RowFallsBackToOwner | data_processor.py:65-67 | With no assignment entry carrying an owner, a truthy top-level `owner` becomes `Assigned To`. `Assigned At` keeps what the scan left, `''` when there was no assignment entry. |
| DataProcessor.HeadersAreDistinct | data_processor.py:75-82 | The 17 headers of the display order are pairwise distinct. |
| DataProcessor.ColumnOrderIsComplete | data_processor.py:75-85 | The display order lists each of the 17 columns exactly once. So `existing_columns` keeps them all. |
| DataProcessor.AllColumnsPresent | data_processor.py:84-85 | With at least one row, and every row dict holding every column, the filter of the display order keeps the whole order. |
| DataProcessor.ProcessAlerts | data_processor.py:6-87 | An empty list gives the empty DataFrame. Processing fails iff some alert has an unexpected shape, and reports the first such alert. Otherwise there is one row per alert, in input order, under exactly the 17 headers in display order. Each cell is that column's value for that alert. |
| DataProcessor.ProcessedTableIsEmptyOnlyWithoutAlerts | data_processor.py:16-17 | A successful result is an empty DataFrame iff there were no alerts. |
| ExcelExporter.Longest | excel_exporter.py:28-34 | The longest cell text bounds every cell and is attained by some cell. It is 0 for a column without cells. |
| ExcelExporter.ColumnWidth | excel_exporter.py:27-45 | The width lies between 2 and 50. Every cell fits with two characters of padding unless the width is capped at 50. Below the cap the width is the padding alone or some cell's padded length. It is the longest padded length exactly when that is at most 50. |
| ExcelExporter.HeaderFits | excel_exporter.py:27-45 | Each column is wide enough for its header plus padding, unless capped. |
| ExcelExporter.ColumnWidths | excel_exporter.py:27-45 | There is one width per column, left to right, each given by the rule for that column's header and cells. Each lies between 2 and 50, and each fits the header unless capped. |
| FetchAlerts.SearchParams | fetch_alerts.py:33-39 | The dict holds `createdAt` = "start/end" and `limit`. It holds `status` iff the filter is not "all", with the filter's name. It holds no other key. |
| FetchAlerts.SearchParamsNeedNoDefaults | fetch_alerts.py:33-42 | The client's defaulting leaves these parameters unchanged, so the page size is `--limit`. |
| FetchAlerts.FetchDetails | fetch_alerts.py:51-59 | The loop succeeds iff every alert has an `id`; otherwise it stops at the first alert without one. It keeps, in list order, each alert's merged record when both its requests succeeded. It sends each alert's requests in turn. |
| FetchAlerts.KeptSplits | fetch_alerts.py:51-59 | The records kept and the requests sent for a list are those for its first part followed by those for the rest. |
| FetchAlerts.KeptCounts | fetch_alerts.py:51-59 | At most one record is kept per alert, exactly one when every fetch succeeds, and none when every detail request fails. Each alert costs one or two requests. |
| FetchAlerts.KeptHaveLogs | fetch_alerts.py:57-59 | Every record kept carries the alert's logs under `logs`. |
| FetchAlerts.DetailRequestsAuthorized | fetch_alerts.py:51-59 | Every request of the detail loop carries `Authorization: GenieKey <key>`. |
| FetchAlerts.Export | fetch_alerts.py:48-78 | It stops with a missing `id` iff some alert lacks one. Otherwise `process_alerts` on the kept records decides. It stops with that call's shape error iff the call fails, and with "no data" iff no record was kept. Otherwise it exports exactly the table `process_alerts` built: one row per kept record under the 17 headers. Each column gets the width rule's width for its header and cells, between 2 and 50. It sends one detail request per alert, by its `id` and in list order, each followed by that alert's logs request when the detail request succeeded. After a missing `id` it has sent exactly those requests for the alerts before it. Every request is authorized. |
| FetchAlerts.Command | fetch_alerts.py:23-79 | The alert list is paged first, exactly as `get_alerts` pages it. The command stops with the fetch error iff paging failed, and with "no alerts" iff paging returned nothing. In both cases it sends no further request. Otherwise it ends as `Export` describes. Its requests are the paging requests followed by the detail loop's requests for the alerts received, up to the first alert without an `id`. Every request carries the key given on the command line. |

## Left out

- HTTP, URLs, JSON decoding and `time.sleep(0.5)` are left out. The replies are oracles, and the pause between pages has no effect on the result.
- The detail and logs replies are assumed well formed: the detail body has a `data` member holding a dict, and the logs body has a `data` member. Three shapes break this, and none is modelled. A detail body without `data` raises KeyError at opsgenie_client.py:103. A logs body without `data` raises KeyError at opsgenie_client.py:109. A detail `data` that is not a dict (null, a list or a string) raises TypeError at opsgenie_client.py:112, where `logs` is added to it. None of these is a RequestException, so each would escape `main`.
- `logging`, `print` and the progress line of `main` are output only.
- `dateutil.parser.parse` with `strftime` is the `parse` parameter, a total function that either formats or fails. Its OverflowError is not modelled: for a string whose date parts exceed a C integer, dateutil raises an exception that `format_timestamp` does not catch, and `process_alerts` then raises.
- A server whose reply to the same request changes between calls is not modelled. Examples: a detail request that fails once and succeeds when a repeated alert id sends it again, or an alert list that changes while it is being paged. Replies are functions of the request.
- Python's `str()` of a non-string value is the `show` parameter of `Gateway.Describe`. Likewise, the conversion of a table value into a sheet cell is the `render` parameter.
- pandas and openpyxl internals are not modelled: DataFrame construction beyond columns and rows, and cell value conversion.
- Freezing the header row, the auto-filter, the bytes buffer and the file write are left out, because they do not affect the table or the widths.
- The bare `except` inside the width loop is left out: `len(str(value))` does not raise for the values a sheet holds.
- `argparse`, the clock and the `--days` arithmetic are left out. The ISO window ends are parameters of `FetchAlerts.Command`.
- JSON floating-point numbers are left out: numbers are integers. Dict key order is not modelled either: decoded objects are maps.
- `app.py` and `logger_config.py` are not part of this model.
- Gateway.GetAlerts: requires an integer `limit`, as the command line always passes. It also requires a server that lets the loop end (`Halts`); `Pagination.FullPagesDoNotHalt` shows that a server sending only full pages never does.
- Gateway.Paginate: the reference loop carries a fuel bound. Runs longer than any fuel are exactly the non-terminating ones, and `Halts` excludes them.
- DataProcessor.ProcessAlerts: some odd shapes that Python happens to accept count as shape errors. These include `tags` given as a string (joined character by character) and `logs` given as another iterable.
- A `data` member of a list page that is neither a list of dicts nor falsy is not modelled. A page either holds a list of alerts or holds none.
