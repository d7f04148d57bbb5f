# Travel-Earn admin dashboard: a Dafny model of its pages' logic

This project models the logic of the Travel-Earn admin frontend's pages in
Dafny and proves properties of that model. The frontend is a React
application whose pages fetch records from a backend and render them. The
model covers these pages:

- the consignment consolidated report: its search/status filter and its
  CSV export;
- the sender and traveler reports: row rendering with defaulted cells, the
  empty-table row, the star rating and the consignment modal;
- the logistics dashboard: the three-button page window and the status CSS
  class;
- the user management page: paging, the details modal and delete;
- the main dashboard: the eighteen statistic cards and the all-or-nothing
  load of four requests;
- the fare configuration page: the mapping between the backend fare record
  and the nine UI fields, the edit guard, and submit.

JavaScript values are the datatype `Js.JsValue`. The coercions the pages
rely on are written out in module `Js`: truthiness for `||`, nullishness for
`??` and `?.`, `String(v)`, `Number(v)` and `parseFloat(v)`. A property
read or method call that throws a `TypeError` or `RangeError` is modelled
as `None`. Each backend request is an input to the method that handles its
outcome: `Response.Ok(body)` or `Response.Failed`. Each page whose state
changes is a class: React state variables are its fields, and each handler
is a method that reassigns them. Computations done during render are
functions. The pages keep the source's defects as written, and lemmas
exhibit them:

- CSV fields are joined without escaping;
- "next" goes to page 0 when there are no pages;
- delete names the user by `id` but removes rows by `_id`;
- opening the fare editor shows the initial zeros, not the loaded fares.

Modules: `Wrappers` (Option, Response), `Text` (ASCII lower case,
substring, join/split), `Lists` (subsequence), `Js`, `Pagination` (shared
page arithmetic), and one module per page: `ConsignmentReport`,
`PartyReport`, `LogisticsDashboard`, `UserManagement`, `Dashboard`,
`PriceControl`.

## Model

| member | source | states |
|---|---|---|
| ConsignmentReport.MatchesSearch | src/pages/ConsignmentConsolidatedReport.js:32-36 | Searching a null or undefined row throws. |
| ConsignmentReport.SearchFromKeepMatches | src/pages/ConsignmentConsolidatedReport.js:32-36 | Whatever types a row's fields have, a row the search keeps has one of the listed fields containing the term, ignoring case. |
| ConsignmentReport.Decide | src/pages/ConsignmentConsolidatedReport.js:31-41 | The callback throws iff the search throws, and keeps a row iff the search keeps it and its status matches. |
| ConsignmentReport.Filter | src/pages/ConsignmentConsolidatedReport.js:31-41 | The filtered list is no longer than the rows, and each row it keeps passes the callback (search and status). |
| ConsignmentReport.SearchFromIff | src/pages/ConsignmentConsolidatedReport.js:32-36 | Over string-or-absent fields, the `?.`-chained search never throws, and keeps a row iff some listed field contains the lower-cased term. |
| ConsignmentReport.SearchIff | src/pages/ConsignmentConsolidatedReport.js:32-36 | For a well-typed row, the search is a case-insensitive substring test over exactly consignmentId, senderName, travelerName and recepientName. |
| ConsignmentReport.AllAbsentNeverMatches | src/pages/ConsignmentConsolidatedReport.js:32-36 | A row with none of the four fields is dropped for every term, including the empty term. |
| ConsignmentReport.EmptyTermMatchesAnyStringField | src/pages/ConsignmentConsolidatedReport.js:32-36 | For a row whose four search fields are each a string or missing, the empty term keeps the row when one of those fields is a string. A field of another type (a number, say) makes the search throw even for the empty term. |
| ConsignmentReport.SearchIgnoresTermCase | src/pages/ConsignmentConsolidatedReport.js:33-36 | Lower-casing the search term beforehand does not change the outcome. |
| ConsignmentReport.SearchFromIgnoresTermCase | src/pages/ConsignmentConsolidatedReport.js:33-36 | Lower-casing the search term does not change the outcome over any list of fields. |
| ConsignmentReport.StatusWildcard | src/pages/ConsignmentConsolidatedReport.js:38 | With status 'all', a row's fate is the search's alone. |
| ConsignmentReport.StatusExact | src/pages/ConsignmentConsolidatedReport.js:38-40 | Any other status keeps a row iff the search keeps it and its consignmentStatus equals the status string exactly. |
| ConsignmentReport.FilterThrowsIff | src/pages/ConsignmentConsolidatedReport.js:31-41 | The filter throws iff its callback throws on some row. |
| ConsignmentReport.FilterIsSubsequence | src/pages/ConsignmentConsolidatedReport.js:31 | The filtered list is an order-preserving subsequence of the rows. |
| ConsignmentReport.FilterCounts | src/pages/ConsignmentConsolidatedReport.js:31-41 | Each row passing the callback appears as often as in the input; every other row appears zero times. |
| ConsignmentReport.FilterMembership | src/pages/ConsignmentConsolidatedReport.js:31-41 | A value is in the result iff it is one of the rows and passes the callback. |
| ConsignmentReport.FilterKeepsAllKept | src/pages/ConsignmentConsolidatedReport.js:31-41 | A list whose rows all pass is returned unchanged. |
| ConsignmentReport.FilterIdempotent | src/pages/ConsignmentConsolidatedReport.js:31-41 | Filtering the filtered list again changes nothing. |
| ConsignmentReport.CellText | src/pages/ConsignmentConsolidatedReport.js:74-97 | A falsy field becomes the empty text. |
| ConsignmentReport.StringCellText | src/pages/ConsignmentConsolidatedReport.js:74-97 | A string field is written as it is, the empty string included. |
| ConsignmentReport.CsvField | src/pages/ConsignmentConsolidatedReport.js:74-97 | A quoted column is its cell text between two `"` with nothing escaped; any other column is the cell text as is. |
| ConsignmentReport.CsvFields | src/pages/ConsignmentConsolidatedReport.js:73-97 | A record has one field per header: 24. |
| ConsignmentReport.ExportText | src/pages/ConsignmentConsolidatedReport.js:43-99 | The export produces text iff the filter does not throw. |
| ConsignmentReport.RecordIsSingleLine | src/pages/ConsignmentConsolidatedReport.js:73-98 | A row with no line break in its cells gives a record with no line break. |
| ConsignmentReport.RecordFields | src/pages/ConsignmentConsolidatedReport.js:73-98 | A record of comma-free cells splits on ',' back into its 24 fields. |
| ConsignmentReport.CsvText | src/pages/ConsignmentConsolidatedReport.js:71-99 | The file starts with the header line; with no rows it is only the header line, otherwise a line break follows the header. |
| ConsignmentReport.CsvLines | src/pages/ConsignmentConsolidatedReport.js:71-99 | Split on line breaks, the file is the header's lines followed by one line per row, in order. |
| ConsignmentReport.RecordsCollideOnCommas | src/pages/ConsignmentConsolidatedReport.js:74-75 | Two different rows give the same record when a comma moves between two unquoted fields. |
| ConsignmentReport.RecordsCollideOnQuotes | src/pages/ConsignmentConsolidatedReport.js:77-79 | Two different rows give the same record, because inner quotes in quoted fields are not escaped. |
| ConsignmentReport.RowsOf | src/pages/ConsignmentConsolidatedReport.js:21 | An array payload gives its items; anything else gives no rows. |
| ConsignmentReport.ReportPage.constructor | src/pages/ConsignmentConsolidatedReport.js:6-10 | Initial state: no rows, loading, no error, empty term, status 'all'. |
| ConsignmentReport.ReportPage.FetchConsignmentData | src/pages/ConsignmentConsolidatedReport.js:16-29 | On success the rows are the array payload (else none) and the error clears. On failure the rows stay and the error is set; the page shows the error unless filtering the rows it keeps throws (the table cells are not rendered on the error screen). Either way loading ends. |
| ConsignmentReport.ReportPage.View | src/pages/ConsignmentConsolidatedReport.js:112-236 | The filter (computed at line 31) runs first on every render, so a throwing filter breaks the loading and error screens too. Otherwise the page shows loading, then a non-empty error, then the table of exactly the filtered rows. The table breaks iff some kept row does not render: its status, payment status or traveler payment status is neither a string nor missing (`?.toLowerCase()` at lines 201, 211, 222), or a cell shown as it is holds a value React refuses as a child: a plain object, or an array with such a value among its items, at any depth. The page breaks exactly in these cases. |
| ConsignmentReport.KeptRowBreaksTable | src/pages/ConsignmentConsolidatedReport.js:31-41 | A row whose id matches the search but whose status is the number 5 is kept by the filter, and the table then breaks on it. |
| ConsignmentReport.KeptArrayCellBreaksTable | src/pages/ConsignmentConsolidatedReport.js:205 | A row whose id matches the search and whose sender id is `[{}]` is kept by the filter, and the table then breaks on the sender id cell. |
| ConsignmentReport.ReportPage.SetSearchTerm | src/pages/ConsignmentConsolidatedReport.js:139 | The search box sets the term. |
| ConsignmentReport.ReportPage.SetFilterStatus | src/pages/ConsignmentConsolidatedReport.js:144 | The select sets the status filter. |
| PartyReport.Headers | src/pages/SenderReport.js:67-77 | The table has 11 columns. |
| PartyReport.TextCell | src/pages/SenderReport.js:88-92 | A falsy field (missing, null, false, 0, '') reads 'N/A'; a non-empty string reads as itself. |
| PartyReport.CountCell | src/pages/SenderReport.js:93-94 | A falsy field reads 0; a number reads as itself. |
| PartyReport.ConsignmentsOf | src/pages/SenderReport.js:96-105 | A details button appears iff the field is a non-empty array; its count is the array's length and it carries the array. |
| PartyReport.Stars | src/pages/SenderReport.js:119 | The stars are as many '★' as the floor of the rating (0 when it is falsy); they throw iff that count is negative. |
| PartyReport.RenderRow | src/pages/SenderReport.js:86-123 | A row throws iff the record is null/undefined or its star count is negative. |
| PartyReport.RenderRows | src/pages/SenderReport.js:86-125 | One row per record, in order, each the record's own row. |
| PartyReport.RenderBody | src/pages/SenderReport.js:81-125 | No records give exactly the one no-data row; otherwise there is one row per record. |
| PartyReport.NoDataSpansAllColumns | src/pages/SenderReport.js:81-84 | The no-data row spans all 11 header columns. |
| PartyReport.RenderRowsThrowsIff | src/pages/SenderReport.js:86-125 | The table throws iff some record's row throws. |
| PartyReport.StarsOfRating | src/pages/SenderReport.js:119 | A rating x ≥ 0 shows n stars with n ≤ x < n + 1. |
| PartyReport.NoRatingNoStars | src/pages/SenderReport.js:119 | A missing, null or zero rating shows no stars. |
| PartyReport.NegativeRatingThrows | src/pages/SenderReport.js:119 | A negative rating makes the row, and so the whole table, throw. |
| PartyReport.KindsAgree | src/pages/TravelerReport.js:86-123 | The traveler report renders a record exactly as the sender report renders the same record under the sender field names. |
| PartyReport.Report.constructor | src/pages/SenderReport.js:6-11 | Initial state: no rows, loading, no error, modal closed and empty. |
| PartyReport.Report.View | src/pages/SenderReport.js:44-84 | Once loaded without error, no rows show exactly the no-data row spanning every column. |
| PartyReport.Report.Fetch | src/pages/SenderReport.js:17-29 | On success the rows are the array payload (else none, which shows the no-data row) and the error clears. On failure the rows stay and the page shows 'Failed to fetch sender data' (traveler: src/pages/TravelerReport.js:25). Either way loading ends. |
| PartyReport.Report.ShowConsignmentDetails | src/pages/SenderReport.js:32-36 | Sets the selected consignments and the modal type, and opens the modal. |
| PartyReport.Report.OpenDetails | src/pages/SenderReport.js:96-102 | The details button opens the modal on exactly the consignments it counted, with type 'sender' or 'traveler'. |
| PartyReport.Report.CloseModal | src/pages/SenderReport.js:38-42 | Closes the modal and resets it to no consignments and an empty type. |
| Pagination.TotalPages | src/pages/LogisticsDashboard.js:21 | `Math.ceil(total / perPage)`: the least page count whose pages hold the total. |
| Pagination.PrevPage | src/pages/LogisticsDashboard.js:221 | `Math.max(page - 1, 1)`: one page back, never below 1. |
| Pagination.NextPage | src/pages/LogisticsDashboard.js:238 | `Math.min(page + 1, totalPages)`: one page on, never past the last. |
| Pagination.PageButtons | src/pages/UserManagement.js:194-198 | The buttons are 1 to totalPages in order, and none for a non-positive count. |
| Pagination.PageButtonsIff | src/pages/Dashboard.js:139-147 | A page has a button iff it lies between 1 and totalPages. |
| Pagination.MovesStayInRange | src/pages/Dashboard.js:131-155 | From a page in range, "«" and "»" stay in range. |
| Pagination.DisabledIffNoMove | src/pages/Dashboard.js:134-152 | Each arrow is disabled iff pressing it would not move. |
| Pagination.NextWithoutPages | src/pages/UserManagement.js:206-207 | With no pages, "»" is enabled and moves to page 0, which has no button. |
| LogisticsDashboard.GetPageNumbers | src/pages/LogisticsDashboard.js:23-38 | At most three consecutive pages, all within 1..totalPages, none when there are no pages, and always including a current page that is in range. |
| LogisticsDashboard.WindowIsSliceOfButtons | src/pages/LogisticsDashboard.js:23-38 | The window is a run of consecutive entries of the full button row. |
| LogisticsDashboard.StatusClass | src/pages/LogisticsDashboard.js:67-76 | Every class starts with 'status-'; it is 'status-' plus the lower-cased status for the five known statuses and 'status-default' for any other string; a non-string status throws. |
| LogisticsDashboard.StatusClassIgnoresCase | src/pages/LogisticsDashboard.js:67-68 | A status and its lower-cased form get the same class. |
| LogisticsDashboard.Dashboard.constructor | src/pages/LogisticsDashboard.js:10-13 | Initial state: page 1, no travel, empty history. |
| LogisticsDashboard.Dashboard.TotalPages | src/pages/LogisticsDashboard.js:21 | The page count for the active travel total at 15 per page. |
| LogisticsDashboard.Dashboard.PageNumbers | src/pages/LogisticsDashboard.js:227 | The buttons shown are at most three pages in range, including the current one. |
| LogisticsDashboard.Dashboard.Prev | src/pages/LogisticsDashboard.js:221 | Moves to the previous page, clamped at 1. |
| LogisticsDashboard.Dashboard.Next | src/pages/LogisticsDashboard.js:238 | Moves to the next page, clamped at totalPages. |
| LogisticsDashboard.Dashboard.GoTo | src/pages/LogisticsDashboard.js:231 | A page button sets the page. |
| LogisticsDashboard.Dashboard.FetchTravelHistory | src/pages/LogisticsDashboard.js:41-62 | On success with `pagination`, the total and history are taken. A failure, or a body whose missing `pagination` makes the read throw, changes nothing. |
| UserManagement.RemoveById | src/pages/UserManagement.js:89 | The list after delete is no longer than before, and each row left has an `_id` differing from the modal user's. |
| UserManagement.RemoveThrowsIff | src/pages/UserManagement.js:89 | The filter throws iff some row is nullish, or there is a row and no modal user. |
| UserManagement.RemoveCounts | src/pages/UserManagement.js:89 | Rows with another `_id` keep their multiplicity; rows with the same `_id` are all gone. |
| UserManagement.RemoveIsSubsequence | src/pages/UserManagement.js:89 | The rows left keep their order. |
| UserManagement.DeletePath | src/pages/UserManagement.js:85 | The request path ends in the user's `id`, or in 'undefined' when there is no user. |
| UserManagement.DeleteNamesOtherKey | src/pages/UserManagement.js:85-89 | A user known only by `_id` is removed from the list while the request names user 'undefined'. |
| UserManagement.MissingIdsAllRemoved | src/pages/UserManagement.js:89 | When the modal user has no `_id`, every row without one is removed too. |
| UserManagement.Page.constructor | src/pages/UserManagement.js:14-28 | Initial state: empty list, modal closed, no selection, loading, no users, page 1. |
| UserManagement.Page.TotalPages | src/pages/UserManagement.js:31 | The page count for the user total at 5 per page. |
| UserManagement.Page.Prev | src/pages/UserManagement.js:188 | Moves to the previous page, clamped at 1. |
| UserManagement.Page.Next | src/pages/UserManagement.js:206 | Moves to the next page, clamped at totalPages. |
| UserManagement.Page.GoTo | src/pages/UserManagement.js:198 | A page button sets the page. |
| UserManagement.Page.FetchDrivers | src/pages/UserManagement.js:35-48 | On success the list and total are taken; on failure they stay. Loading ends either way. |
| UserManagement.Page.FetchSelectedUser | src/pages/UserManagement.js:56-74 | The modal user is loaded only while the modal is open with a phone number set and the request succeeds. |
| UserManagement.Page.HandleDeleteClick | src/pages/UserManagement.js:76-81 | Remembers the user and their phone number, and opens the modal. |
| UserManagement.Page.HandleDeleteConfirm | src/pages/UserManagement.js:83-95 | Sends the request to the `id` path. When it succeeds and the filter does not throw, the list loses the `_id` matches and the modal closes; otherwise nothing changes. |
| UserManagement.Page.ModalShown | src/pages/UserManagement.js:215 | The delete modal is on screen only when it is open and the selected user is present (not null or undefined). The guard covers `selectedUser` only; the `driverDetails` fields the modal reads are not guarded. |
| UserManagement.Page.HandleModalClose | src/pages/UserManagement.js:97-100 | Closes the modal and clears the user, so the modal is not shown. |
| Dashboard.Default | src/pages/Dashboard.js:54-63 | A destructuring default replaces undefined only; null is kept. |
| Dashboard.StatsRecord | src/pages/Dashboard.js:63 | `stats ?? {}` is never nullish, and is `{}` without stats. |
| Dashboard.AllCards | src/pages/Dashboard.js:54-84 | The cards throw iff `daily` or `monthly` is null; otherwise there are 18 cards with their titles in order. |
| Dashboard.Shown | src/pages/Dashboard.js:104 | `card.value ?? 0` is never nullish and keeps any non-nullish value. |
| Dashboard.NoStatsAllZero | src/pages/Dashboard.js:54-84 | Without stats, all 18 cards hold 0. |
| Dashboard.TotalCards | src/pages/Dashboard.js:55-60 | A total card holds the record's field, or 0 only when the field is undefined. |
| Dashboard.PeriodCards | src/pages/Dashboard.js:72-83 | A daily or monthly card holds its period field, or 0 when the field is nullish, and is never nullish. |
| Dashboard.NullTotalShownAsZero | src/pages/Dashboard.js:55-60 | A total that is null stays null on its card and is shown as 0. |
| Dashboard.Page.constructor | src/pages/Dashboard.js:9-17 | Initial state: no stats, zero totals, empty history, page 1. |
| Dashboard.Page.TotalPages | src/pages/Dashboard.js:20 | The page count for the transaction total at 10 per page. |
| Dashboard.Page.Prev | src/pages/Dashboard.js:133 | Moves to the previous page, clamped at 1. |
| Dashboard.Page.Next | src/pages/Dashboard.js:151 | Moves to the next page, clamped at totalPages. |
| Dashboard.Page.GoTo | src/pages/Dashboard.js:143 | A page button sets the page. |
| Dashboard.Page.FetchStats | src/pages/Dashboard.js:28-46 | The four results are taken together only when all four requests succeed; otherwise nothing changes. |
| PriceControl.Fares.Set | src/pages/PriceControl.js:51 | `{ ...fares, [f]: v }` changes field f to v and no other field. |
| PriceControl.PricingFromConfig | src/pages/PriceControl.js:32-36 | The backend record read as the nine UI fields; it throws iff the record or its `distanceRateTrain` is nullish. |
| PriceControl.BuildPayload | src/pages/PriceControl.js:59-71 | The payload carries, for each of the nine UI fields, `parseFloat` of what the draft holds in it. |
| PriceControl.PayloadJson | src/pages/PriceControl.js:59-71 | The request body holds exactly the backend's seven top-level fare keys, with the three train rates nested under `distanceRateTrain`. |
| PriceControl.ReadBackField | src/pages/PriceControl.js:32-36 | Reading a request body back as fares never throws, and gives in each field the JSON value sent for it. |
| PriceControl.NumberJson | src/pages/PriceControl.js:59-71 | A NaN from `parseFloat` is sent as null; a number is sent as itself. |
| PriceControl.DraftRoundTrip | src/pages/PriceControl.js:32-36 | A numeric draft that is submitted and read back is the same draft. |
| PriceControl.ReadBack | src/pages/PriceControl.js:32-36 | A request body read back as fares gives each field as it was sent. |
| PriceControl.NumbersSentAsTyped | src/pages/PriceControl.js:59-71 | Each field of a numeric draft is sent as the number it holds. |
| PriceControl.ConfigRoundTrip | src/pages/PriceControl.js:32-36 | A numeric backend record that is read and submitted unchanged is sent back identical (the form submits it only when `FormValid` holds: every value at least 0 and in whole hundredths). |
| PriceControl.SentTrainRates | src/pages/PriceControl.js:67-71 | The nested train rates of a numeric record are sent back identical. |
| PriceControl.TypedIntegerSent | src/pages/PriceControl.js:59-71 | A field typed as the text of a whole number is sent as that number. |
| PriceControl.BlankFieldBlocksSubmit | src/pages/PriceControl.js:133-140 | Any blank field passes the `value >= 0` guard but fails the input's `required`, so the form is not submitted and nothing is sent. Had `handleSubmit` run, it would have sent null for that field. |
| PriceControl.TypedIntegerValid | src/pages/PriceControl.js:133-140 | On the text of a whole number, the input's validation accepts exactly the non-negative ones, just as the `value >= 0` guard does. |
| PriceControl.GuardOnIntegers | src/pages/PriceControl.js:50 | On the text of a whole number, the guard accepts exactly the non-negative ones. |
| PriceControl.Page.constructor | src/pages/PriceControl.js:7-20 | Initial state: pricing and draft all zero, no status, modal closed. |
| PriceControl.Page.FetchPricing | src/pages/PriceControl.js:23-44 | A successful fetch of a readable record replaces the shown pricing; anything else changes nothing. The draft is never touched. |
| PriceControl.Page.HandleChange | src/pages/PriceControl.js:48-53 | A typed value is stored in its field iff `value >= 0` holds; no other field changes. |
| PriceControl.Page.HandleSubmit | src/pages/PriceControl.js:56-94 | Runs only on a valid form. Sends the parsed draft. An accepted reply adopts the draft and closes the modal with the success message; a rejected or failed reply keeps the pricing and sets its message. |
| PriceControl.Page.SubmitForm | src/pages/PriceControl.js:128-146 | Something is sent iff every input passes its `min`, `step` and `required` constraints, and then it is the parsed draft with `handleSubmit`'s three reply outcomes; otherwise nothing changes. |
| PriceControl.Page.HandleCloseModal | src/pages/PriceControl.js:97-100 | Closes the modal and resets the draft to the shown pricing. |
| PriceControl.Page.OpenModal | src/pages/PriceControl.js:118 | The "Edit Pricing" button only opens the modal. |
| PriceControl.OpenAfterFetch | src/pages/PriceControl.js:18-44 | Right after the fares load, the editor shows the initial zeros rather than the loaded fares. |

## Left out

- Rendering (JSX markup, CSS class strings other than the logistics status class, `toFixed` formatting, locale dates) is not modelled. The text of the consignment report's table cells (src/pages/ConsignmentConsolidatedReport.js:192-236) is not modelled; `ReportPage.View` models only when those cells throw. The modal's consignment table in the sender and traveler reports (src/pages/SenderReport.js:153-170) applies `String(v || 'N/A')` / `Number(v || 0)` to each entry. It is not modelled, and neither is its throw on a null or undefined entry of `selectedConsignments`, whose `consignmentId` is read outside `String(...)` as the row key (line 154).
- User management's delete modal reads `driverDetails` fields without a guard (`driverDetails.totalEarnings.toFixed(2)`, src/pages/UserManagement.js:220-224). That throw is not modelled.
- Numbers are exact rationals: no floating-point rounding. `Number(text)` reads decimal text only; exponent, hexadecimal and `Infinity` spellings give NaN. `parseFloat` reads the longest decimal prefix, so it stops at an exponent: `parseFloat("1e5")` is 1 here but 100000 in JavaScript.
- `String(x)` prints every number in plain decimal with at most 20 fraction digits. Numbers of 1e21 and above and numbers below 1e-6 are not printed in exponential form (`String(1e-7)` is "1e-7" in JavaScript but "0.0000001" here), and fractions are cut at 20 digits instead of printed in their shortest round-trip form.
- White space for trimming (`Number`, `parseFloat`) is the six ASCII characters space, tab, line feed, carriage return, vertical tab and form feed. JavaScript also trims U+00A0, U+FEFF, the other Unicode space separators and the line and paragraph separators.
- Lower-casing is ASCII only; Unicode case mapping is not modelled.
- Object key order (`Object.entries`), array index keys and prototype members are not modelled. `Js.Read` sees own properties, and `length` of arrays and strings.
- Timing is not modelled: the debounce timers, the parallelism of `Promise.all`, and races between requests that overlap. Each request outcome is an input, and the effects that start requests are the methods that take those inputs.
- The CSV file download (Blob, object URL, link click) and the logistics page's export helpers (`./Utils/download`) are not part of this model. Neither are the logistics page's search, driver and date filter inputs, which only feed the travel-history request.
- src/Services/Api.js, src/App.js, src/Components/Sidebar.js and src/pages/Management.js are context and are not part of this model. The report-fetching functions the report pages import are not defined in the Api.js shown, so their outcomes are inputs.
- Dashboard.Page.FetchStats: the Total Users and Total Earnings cards (`totalUsers.total`, `totalEarnings?.totalEarnings?.toFixed(2)`) are not rendered by the model; the fields are stored as fetched.
- Totals from the backend (`pagination.total`, `totalCount`, `total`) are modelled as whole numbers, so `Pagination.TotalPages` is the ceiling of an integer division. A fractional or missing total is not modelled.
- Reference equality (`!==` between `_id` values, src/pages/UserManagement.js:89) is modelled as structural equality of values; it differs only for `_id` values that are objects.
- ConsignmentReport.CsvLines: the header line's own split is left as `Split(HeaderLine())`; that the header holds no line break is not stated.
- PriceControl.Page.HandleChange: the field is one of the nine fare fields. The inputs are rendered from the draft's own keys, so no other name reaches the handler.
- PriceControl.Page.SubmitForm: the browser's validation is modelled as the three constraints on each field's value. The input's value sanitization is not modelled (text that is not a valid number, such as " 5" or "5abc", shows as an empty input in a browser), nor the rounding tolerance browsers allow in the step test. Values that are neither numbers nor text are taken as an empty input. The validation message the browser shows is not modelled.
- PartyReport.Stars: `'★'.repeat` of an infinite count (an infinite rating) is not modelled, since numbers are finite here.
