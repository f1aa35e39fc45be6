# Social dashboard: a verified model of its data core

The social dashboard has two parts:

- a React front-end, which holds social accounts, posts, revenue records and import batches in memory;
- a Laravel back-end, which aggregates stored social metrics and Google Analytics figures and keeps users' saved dashboards.

This project models the parts of both that compute something and proves what they promise.

- **Revenue import** (`RevenueImport`, `ImportRows`, `DataImport`). This covers the page's import pipeline:
  - accepting a file and auto-mapping its columns onto the seven revenue fields;
  - editing that mapping, and the readiness check for the preview;
  - the per-row loop, which turns every parsed row into one revenue record or one numbered error message;
  - the batch audit records.
- **Client store and social overview** (`DataStore`). `DataStore.Store` is a class with the provider's state arrays. Its methods prepend batches and records, add accounts with a fresh id and remove them. Pure functions give the getters and the cross-platform overview.
- **Revenue page** (`RevenueReport`). This covers:
  - the window and platform filter with its date sort;
  - per-platform totals and the key indicators;
  - revenue per day and the five best days;
  - the CSV export.
- **Publications page** (`Posts`). This is the search and platform filter.
- **Shared front-end records** (`Types`).
- **Social metrics API** (`SocialMetrics`). This covers:
  - per-account sums by metric type over a date window;
  - the overview loop and request validation;
  - the `sync` dispatch;
  - the `posts` query parameters.
- **Analytics API** (`Analytics`). This covers:
  - the overview loop, with sums, averages over the accounts that reported a value, and key-wise merges of the traffic-source and device maps;
  - tolerance of failing accounts;
  - the traffic-sources endpoint and the top-pages limit.
- **Dashboards API** (`DashboardPolicy`, `Dashboards`). This covers the owner/shared policy and `Dashboards.DashboardStore`, a class holding the `dashboards` table. Its actions keep at most one default dashboard per user and a share token exactly on shared dashboards.

Numbers are modelled as follows:

- JavaScript and PHP numbers are `real`, so there is no double rounding.
- A JavaScript number that may be NaN is `Number`.
- Identifiers are `int`.
- Dates are ISO strings compared character by character. This matches string comparison and `localeCompare` on such dates.

What the model takes from the host:

- the host's date parsing (`new Date`, `toISOString`);
- `String(x)` and `toFixed(2)`;
- `parseInt` and `parseFloat` on metric cells;
- `Date.now()`;
- `Str::random(32)` and `url()`;
- the answers of the analytics and platform services.

These are all parameters. The file parsers are outside the model: a handler receives the parsed column names and rows. The `parseFloat` applied to a cleaned revenue string is modelled exactly, as the longest decimal prefix of a text made only of digits and points.

## Model

| member | source | states |
|---|---|---|
| Types.AllPlatformsComplete | app/src/types/index.ts:9 | every platform is one of the seven of the union type |
| Types.ParsePlatform | app/src/types/index.ts:9 | a platform string is read back exactly when it is one of the seven keys, and to the platform with that key |
| Types.SumByPlatform | app/src/types/index.ts:9 | a sum over records equals the sum of its seven per-platform sums |
| DataStore.NextAccountId | app/src/contexts/DataContext.tsx:204-210 | the new id is at least 1 and above every existing id; it is 1 or one more than an existing id (max of ids and 0, plus 1) |
| DataStore.Store.constructor | app/src/contexts/DataContext.tsx:141-149 | the provider starts from the given accounts, posts, revenue and date range, with no import batches |
| DataStore.Store.SetDateRange | app/src/contexts/DataContext.tsx:146-149 | only the date range changes |
| DataStore.Store.AddImportBatch | app/src/contexts/DataContext.tsx:196-198 | the batch is prepended with no de-duplication; nothing else changes |
| DataStore.Store.AddRevenueData | app/src/contexts/DataContext.tsx:200-202 | the new records come first and the old ones follow unchanged |
| DataStore.Store.AddAccount | app/src/contexts/DataContext.tsx:204-210 | the account is appended with id `NextAccountId`; the id is positive and differs from every earlier id; ids stay distinct |
| DataStore.Store.RemoveAccount | app/src/contexts/DataContext.tsx:212-214 | the accounts become `WithoutAccount(old, id)`, so exactly the other accounts remain, each as often as before and in order; ids stay distinct; nothing else changes |
| DataStore.WithoutAccount | app/src/contexts/DataContext.tsx:212-214 | exactly the accounts with another id remain, each as often as before, in order (an order-preserving subsequence) |
| DataStore.WithoutAccountKeeps | app/src/contexts/DataContext.tsx:212-214 | removing accounts keeps ids distinct |
| DataStore.RevenueByPlatform | app/src/contexts/DataContext.tsx:216-218 | exactly the records of that platform, each as often as stored, in order |
| DataStore.RevenueByDateRange | app/src/contexts/DataContext.tsx:224-226 | exactly the records with start <= date <= end (string order), each as often as stored, in order |
| DataStore.TotalRevenueByPlatform | app/src/contexts/DataContext.tsx:220-222 | the total revenue equals the sum of the seven per-platform revenues |
| DataStore.TotalRevenueAdd | app/src/contexts/DataContext.tsx:200-222 | after records are prepended, the total is the new records' total plus the old records' total |
| DataStore.PostsOf | app/src/contexts/DataContext.tsx:162 | exactly the posts of that account, each as often as stored, in order (an order-preserving subsequence) |
| DataStore.AccountStats | app/src/contexts/DataContext.tsx:161-175 | an account's entry has its followers, views summed over its posts, reach equal to views, and the mean engagement rate of its posts (0 for none); its revenue is its platform's revenue |
| DataStore.Mean | app/src/contexts/DataContext.tsx:164 | the divisor is `length \|\| 1`: for n > 0 posts the mean times n is the total; for none it is the (empty, so 0) total itself, never NaN |
| DataStore.MeanEngagementBounded | app/src/contexts/DataContext.tsx:162-164 | when an account has posts, its rate lies between the smallest and largest of its posts' rates |
| DataStore.PlatformBreakdown | app/src/contexts/DataContext.tsx:159-176 | the `forEach` loop writes, for each account in turn, its entry under its platform; this gives `PlatformEntries` |
| DataStore.SocialOverviewOf | app/src/contexts/DataContext.tsx:151-189 | the totals are sums over accounts, posts and revenue; reach = views; engagement = likes + comments + shares; `platforms` has exactly the platforms of the accounts, each holding the stats of the LAST account on it |
| DataStore.EngagementIsInteractions | app/src/contexts/DataContext.tsx:178-183 | total engagement is total likes + total comments + total shares |
| DataStore.OverviewFollowersWhenDistinct | app/src/contexts/DataContext.tsx:152-176 | when account platforms are distinct, total followers is the sum of the followers of the platform entries |
| Text.LowerChar | app/src/pages/DataImportPage.tsx:111 | `toLowerCase` on a Latin letter: the result is never a capital, a capital always changes, and every other character is kept |
| Text.Lower | app/src/pages/DataImportPage.tsx:111 | `toLowerCase` on a string: same length, character by character, and no capital letter is left |
| RevenueImport.FieldIndex | app/src/pages/DataImportPage.tsx:38-46 | the position of each field in the declared order of the seven |
| RevenueImport.FieldKeyInjective | app/src/pages/DataImportPage.tsx:38-46 | the seven field keys are distinct |
| RevenueImport.FindFieldFrom | app/src/pages/DataImportPage.tsx:108-119 | the first field, from a position on, that the column matches, or none |
| RevenueImport.FirstMatch | app/src/pages/DataImportPage.tsx:108-119 | a column maps to the first field, in declared order, whose key or lower-cased label is a substring of the lower-cased column name; it maps to none iff no field matches |
| RevenueImport.PickColumns | app/src/pages/DataImportPage.tsx:108-119 | the mapped columns are exactly the columns that some field matches, in column order (one mapping per column at most) |
| RevenueImport.PickFields | app/src/pages/DataImportPage.tsx:108-119 | every mapping carries its column's chosen field |
| RevenueImport.AutoMappingsSpec | app/src/pages/DataImportPage.tsx:108-119 | auto-mapping gives each matching column exactly one mapping, to its first matching field, in column order |
| RevenueImport.PickEach | app/src/pages/DataImportPage.tsx:108-119 | the `forEach` that pushes mappings builds `Pick(cols, choose)` |
| RevenueImport.AutoMap | app/src/pages/DataImportPage.tsx:108-120 | the loop builds the auto-mappings |
| RevenueImport.EarningsColumnNotDate | app/src/pages/DataImportPage.tsx:108-119 | a column lower-casing to `gains_estimes` or `gains estimés` does not match the date field (nor, in the sibling lemmas `EarningsColumnNot*`, the other fields before the earnings one; `EarningsColumnNotEarnings` covers `gains_estimes` only) |
| RevenueImport.TemplateEarningsColumnUnmapped | app/src/pages/DataImportPage.tsx:108-119 | the template's column `Gains_Estimes` is not auto-mapped |
| RevenueImport.AccentedEarningsColumnMapped | app/src/pages/DataImportPage.tsx:108-119 | the column `GAINS ESTIMÉS` lower-cases to the earnings label and is mapped onto the earnings field |
| RevenueImport.DateColumnMapped | app/src/pages/DataImportPage.tsx:108-119 | a column named `date` in any case is mapped to the date field |
| RevenueImport.TwoColumnsOneField | app/src/pages/DataImportPage.tsx:108-119 | nothing prevents two columns from mapping to one field: `Date` and `date` both map to date |
| RevenueImport.OtherMappings | app/src/pages/DataImportPage.tsx:141 | exactly the mappings of other columns, each as often as before, in order |
| RevenueImport.MappingChanged | app/src/pages/DataImportPage.tsx:139-147 | the result is the other columns' mappings, unchanged and in order, followed by the single new mapping of the column, or by nothing when the field is empty |
| RevenueImport.OtherMappingsIdempotent | app/src/pages/DataImportPage.tsx:141 | dropping a column's mappings twice is dropping them once |
| RevenueImport.MappingChangedIdempotent | app/src/pages/DataImportPage.tsx:139-147 | making the same change twice is making it once |
| RevenueImport.FirstIndexOfField | app/src/pages/DataImportPage.tsx:189-197 | the first mapping targeting the field, or -1 iff there is none |
| RevenueImport.FindByField | app/src/pages/DataImportPage.tsx:189-197 | `find`: none iff no mapping targets the field; otherwise the first one that does |
| RevenueImport.AfterPreview | app/src/pages/DataImportPage.tsx:149-159 | the page moves to the preview iff date and revenue are both mapped; otherwise the step is unchanged |
| RevenueImport.PreviewRow | app/src/pages/DataImportPage.tsx:328-337 | a preview row has exactly the mapped labels as keys; a label repeated by two mappings shows the later mapping's cell |
| RevenueImport.PreviewData | app/src/pages/DataImportPage.tsx:328-337 | the preview shows the first five rows (fewer if there are fewer), each through `PreviewRow` |
| ImportRows.DateFallbackReassembles | app/src/pages/DataImportPage.tsx:213-218 | `d<sep>m<sep>y`, with one separator among `/ - .` and parts free of separators, is retried as `y-m-d` |
| ImportRows.DateFallbackNeedsTwoSeparators | app/src/pages/DataImportPage.tsx:213-218 | the fallback applies iff the text splits into exactly three parts (two separators) |
| ImportRows.DateOfText | app/src/pages/DataImportPage.tsx:207-226 | a text the host parses is taken as parsed; otherwise only the reassembled text is retried; otherwise none |
| ImportRows.StoredDateOfTimestamp | app/src/pages/DataImportPage.tsx:240 | the stored date is the part of the ISO timestamp before `T` |
| ImportRows.CleanRevenueText | app/src/pages/DataImportPage.tsx:230-231 | the cleaned text holds only digits, `.` and `,`, and so never `-` |
| ImportRows.CleanRevenueKeepsPlainDecimal | app/src/pages/DataImportPage.tsx:230-231 | a text of digits and points is kept as it is |
| ImportRows.ParseDecimal | app/src/pages/DataImportPage.tsx:231 | `parseFloat` on a cleaned text is finite iff the text starts with a decimal, and is then non-negative |
| ImportRows.ParseDecimalWhole | app/src/pages/DataImportPage.tsx:231 | digits followed by neither a digit nor a point read as that whole number |
| ImportRows.ParseDecimalFraction | app/src/pages/DataImportPage.tsx:231 | `n.f` followed by a non-digit reads as n plus the fraction f |
| ImportRows.RevenueOfCell | app/src/pages/DataImportPage.tsx:228-235 | a numeric cell passes through unchanged; a revenue read from text is never negative |
| ImportRows.RevenueWithDecimalComma | app/src/pages/DataImportPage.tsx:228-235 | `n,f` reads as n plus the fraction f: the first comma is the decimal point |
| ImportRows.RevenueDropsMinus | app/src/pages/DataImportPage.tsx:228-235 | `-n` in text reads as +n: the minus sign is stripped |
| ImportRows.Metric | app/src/pages/DataImportPage.tsx:243-247 | an optional metric is present iff its field is mapped |
| ImportRows.RowOutcomeCases | app/src/pages/DataImportPage.tsx:185-259 | without date and revenue mapped, every row is skipped; a falsy date or revenue cell gives `Ligne n: Date ou revenu manquant`; a row is imported iff both cells are truthy, the date parses and the revenue is not NaN; every message starts with `Ligne i+1: `; a record carries the stored date and the revenue read |
| ImportRows.RowImportedWhen | app/src/pages/DataImportPage.tsx:199-249 | with both cells truthy, a parsed date and a finite revenue, the row gives its record |
| ImportRows.RowDateRejectedWhen | app/src/pages/DataImportPage.tsx:207-226 | a date that does not parse gives `Ligne n: Format de date invalide (raw)` |
| ImportRows.RowRevenueRejectedWhen | app/src/pages/DataImportPage.tsx:228-235 | a NaN revenue gives `Ligne n: Revenu invalide (raw)` |
| ImportRows.Outcomes | app/src/pages/DataImportPage.tsx:185-259 | one outcome per row, the i-th from the i-th row and index i |
| ImportRows.ImportedRows | app/src/pages/DataImportPage.tsx:237-249 | the records are, in row order, exactly those of the rows that were imported |
| ImportRows.RejectedRows | app/src/pages/DataImportPage.tsx:199-235 | the errors are, in row order, exactly those of the rows that were rejected |
| ImportRows.OutcomeCount | app/src/pages/DataImportPage.tsx:185-259 | when no row is skipped, records + errors = rows; when all are skipped, both are empty |
| ImportRows.RowsPartitioned | app/src/pages/DataImportPage.tsx:185-259 | with date and revenue mapped, each row yields exactly one record or one error; otherwise none yields either |
| ImportRows.RowSkipped | app/src/pages/DataImportPage.tsx:189-197 | a row is skipped iff the mapping is not ready |
| ImportRows.ErrorsNumbered | app/src/pages/DataImportPage.tsx:199-235 | the k-th error starts with `Ligne i+1: `, where i is the index of the row it came from |
| ImportRows.RecordsWellFormed | app/src/pages/DataImportPage.tsx:237-249 | every record is on the chosen platform, in `EUR`, with source `csv`, the id `Date.now() + i` of its row i, and metrics only for mapped fields |
| ImportRows.RecordIdsIncrease | app/src/pages/DataImportPage.tsx:238 | with a clock that does not run backwards, the ids `Date.now() + i` strictly increase along the records |
| ImportRows.Normalize | app/src/pages/DataImportPage.tsx:185-259 | the row loop with `continue` yields exactly the records and the errors of the outcomes |
| ImportRows.NormalizeBy | app/src/pages/DataImportPage.tsx:185-259 | the loop, for any per-row step, yields the records and errors of its outcomes |
| ImportRows.ProcessingBatch | app/src/pages/DataImportPage.tsx:168-180 | the batch of a starting import is `processing`, with no rows imported, type `csv` iff the name ends in `.csv`, and no end time or errors |
| ImportRows.FinishedBatch | app/src/pages/DataImportPage.tsx:266-274 | `importedCount` is the record count; status is `error` iff there are errors and no records, else `completed`; `errors` is absent iff there are none; the rest is kept |
| ImportRows.ImportedThenRejected | app/src/pages/DataImportPage.tsx:185-259 | records and errors keep outcome order |
| ImportRows.ExampleImport | app/src/pages/DataImportPage.tsx:185-259 | `01/02/2024`,`125,50` / `invalid`,`10` / `2024-02-03`,`abc` gives one record (2024-02-01, 125.5) and two errors, `Ligne 2: Format de date invalide (invalid)` and `Ligne 3: Revenu invalide (abc)`, when the host reads `01/02/2024` as no date |
| DataImport.RefusedFile | app/src/pages/DataImportPage.tsx:65-74 | a file with none of the three MIME types and none of the extensions is refused |
| DataImport.EndBatchAccounts | app/src/pages/DataImportPage.tsx:266-274 | the start and end batches share their id and a row count equal to the rows; with date and revenue mapped, imported + errors = rows; otherwise nothing is imported, there are no errors and the batch is `completed`; the status is `error` iff nothing was imported and there are errors |
| DataImport.ImportPage.constructor | app/src/pages/DataImportPage.tsx:50-58 | the page opens on upload with Facebook selected and nothing loaded |
| DataImport.ImportPage.SelectPlatform | app/src/pages/DataImportPage.tsx:370 | only the platform changes |
| DataImport.ImportPage.SelectFile | app/src/pages/DataImportPage.tsx:61-137 | a refused file changes nothing; an accepted file is selected; a failed parse returns to upload; a parsed one loads rows and columns, auto-maps them and moves to mapping |
| DataImport.ImportPage.ChangeMapping | app/src/pages/DataImportPage.tsx:139-147 | the mappings become `MappingChanged(old, col, field)`; nothing else changes |
| DataImport.ImportPage.Preview | app/src/pages/DataImportPage.tsx:149-159 | the step becomes `AfterPreview(mappings, step)`; nothing else changes |
| DataImport.ImportPage.BackToMapping | app/src/pages/DataImportPage.tsx:529 | the step returns to mapping; nothing else changes |
| DataImport.ImportPage.Reset | app/src/pages/DataImportPage.tsx:297-307 | file, rows, columns and mappings are cleared; the step returns to upload; the platform is kept |
| DataImport.ImportPage.Import | app/src/pages/DataImportPage.tsx:161-295 | no file or no rows changes nothing; otherwise the records of the outcomes are prepended to the store's revenue, the processing and finished batches are prepended, and the page is reset to upload |
| DataImport.RunImport | app/src/pages/DataImportPage.tsx:166-282 | the store gets the outcomes' records before its old ones, and the finished batch then the processing batch before its old batches; accounts, posts and the range are unchanged |
| RevenueReport.FilteredRevenueSpec | app/src/pages/RevenuePage.tsx:32-42 | the list is a permutation of the records in the inclusive window and on the chosen platform (or any for `all`), sorted ascending by date |
| RevenueReport.FilteredEverything | app/src/pages/RevenuePage.tsx:32-42 | when all records are in the window and every platform is chosen, the list is the records sorted by date |
| RevenueReport.DateLeTotalPreorder | app/src/pages/RevenuePage.tsx:41 | the date comparison is total and transitive |
| RevenueReport.TotalsOfSpec | app/src/pages/RevenuePage.tsx:44-57 | the platform totals have an entry exactly for the platforms in the list, each the totals of that platform's records |
| RevenueReport.PlatformTotalsOf | app/src/pages/RevenuePage.tsx:44-57 | the `forEach` accumulator computes `TotalsOf` |
| RevenueReport.PlatformTotalsSnoc | app/src/pages/RevenuePage.tsx:47-54 | one more record adds its revenue, impressions and clicks (absent counted as 0) to its platform only |
| RevenueReport.EntriesAreSums | app/src/pages/RevenuePage.tsx:44-57 | each platform's revenue, impressions and clicks are the sums of its records' values, with absent as 0 |
| RevenueReport.TotalsAddUp | app/src/pages/RevenuePage.tsx:44-69 | total revenue, impressions and clicks equal the sums of the platform entries |
| RevenueReport.AvgCtr | app/src/pages/RevenuePage.tsx:71-73 | 0 when there are no impressions; otherwise clicks / impressions * 100, non-negative for non-negative clicks |
| RevenueReport.RpmDays | app/src/pages/RevenuePage.tsx:76 | the divisor is `max(1, n/5)`: never below 1 |
| RevenueReport.AvgRpm | app/src/pages/RevenuePage.tsx:75-78 | RPM times the divisor is the total revenue; with at most five records it is the total |
| RevenueReport.GroupDays | app/src/pages/RevenuePage.tsx:80-96 | the grouping loop builds the per-date map and the order of first appearance |
| RevenueReport.DailyRevenueOf | app/src/pages/RevenuePage.tsx:80-100 | the method computes `DailyRevenue` |
| RevenueReport.DailyRevenueSpec | app/src/pages/RevenuePage.tsx:80-100 | one entry per distinct date, each the sum of that date's records, covering every date, strictly ascending by date |
| RevenueReport.DayPlatformEntry | app/src/pages/RevenuePage.tsx:87-94 | a day's platform sub-field is the revenue of that platform's records on that day (0 when absent) |
| RevenueReport.DayPlatformsAddUp | app/src/pages/RevenuePage.tsx:87-94 | a day's seven platform sub-fields add up to its revenue |
| RevenueReport.TopEarningDaysSpec | app/src/pages/RevenuePage.tsx:110-115 | at most five days (all if fewer), taken from the daily list, in non-increasing revenue order, and no omitted day earns more than an included one |
| RevenueReport.ExportDefaults | app/src/pages/RevenuePage.tsx:119-127 | a line holds the date and the revenue with two decimals; missing or zero impressions and clicks, and missing ctr and cpm, are written `0` |
| RevenueReport.ExportLineFields | app/src/pages/RevenuePage.tsx:119-129 | splitting an exported line on commas gives back its seven fields |
| RevenueReport.ExportCsvRoundTrip | app/src/pages/RevenuePage.tsx:117-129 | the file splits into the header `Date,Plateforme,Revenu,Impressions,Clics,CTR,CPM` plus one line per record, in order, each splitting into its fields |
| Posts.FilteredPostsSpec | app/src/pages/PostsPage.tsx:34-40 | the result is an order-preserving subsequence; a post is kept, as often as stored, iff the search and platform tests both hold |
| Posts.NoFilterShowsAll | app/src/pages/PostsPage.tsx:34-40 | an empty query and no platform give all posts, in order |
| Posts.NoContentNeverFound | app/src/pages/PostsPage.tsx:35-36 | a post without content never matches a non-empty query |
| Posts.NoAccountNeverOnPlatform | app/src/pages/PostsPage.tsx:37-38 | a post without its account never matches a chosen platform |
| Posts.SearchIsSubstring | app/src/pages/PostsPage.tsx:35-36 | a non-empty query matches iff its lower-case form occurs in the lower-cased content |
| Posts.SearchIgnoresCase | app/src/pages/PostsPage.tsx:35-36 | the query and its lower-case form match the same posts |
| Posts.AccentedQueryFound | app/src/pages/PostsPage.tsx:35-36 | accented capitals are folded: the query `école` finds the content `École` |
| Posts.ForeignCharacterNotFound | app/src/pages/PostsPage.tsx:35-36 | a query holding a character absent from the content does not match it |
| SocialMetrics.MetricsForAccountSpec | backend/app/Http/Controllers/Api/SocialMetricsController.php:204-214 | a metric type is present iff the account has a row of it dated in the inclusive window, and then maps to the sum of those rows' values |
| SocialMetrics.MetricOrZero | backend/app/Http/Controllers/Api/SocialMetricsController.php:80-86 | `$metrics[type] ?? 0` is the window's sum for the type, 0 for none |
| SocialMetrics.NoEngagementRateKind | backend/app/Http/Controllers/Api/SocialMetricsController.php:92 | no metric type is `engagement_rate`, so the platform entry's rate is always 0 |
| SocialMetrics.ComputeOverview | backend/app/Http/Controllers/Api/SocialMetricsController.php:66-94 | the `foreach` loop with its `+=` and overwrites computes `OverviewOf` |
| SocialMetrics.TotalIsRowSum | backend/app/Http/Controllers/Api/SocialMetricsController.php:77-86 | each total is the sum over accounts of the account's per-type sum |
| SocialMetrics.EngagementFromStoredRows | backend/app/Http/Controllers/Api/SocialMetricsController.php:83 | total engagement comes only from stored `engagement` rows: without any in the window it is 0, whatever the likes, comments and shares |
| SocialMetrics.OverviewPlatforms | backend/app/Http/Controllers/Api/SocialMetricsController.php:88-93 | `platforms` has exactly the accounts' platforms, each from the LAST account on it, with followers, views and reach (0 when absent) and rate 0 |
| SocialMetrics.EmptyOverview | backend/app/Http/Controllers/Api/SocialMetricsController.php:66-75 | with no accounts, every total is 0 and `platforms` is empty |
| SocialMetrics.OverviewEndpoint | backend/app/Http/Controllers/Api/SocialMetricsController.php:46-97 | a request is refused iff it is invalid; otherwise the answer is the overview of the selected accounts |
| SocialMetrics.SelectedAccountsSpec | backend/app/Http/Controllers/Api/SocialMetricsController.php:57-65 | exactly the active accounts, narrowed to the listed platforms only when the list is non-empty, each as often as stored, in order |
| SocialMetrics.NoPlatformsAllActive | backend/app/Http/Controllers/Api/SocialMetricsController.php:57-65 | with no platforms listed, all active accounts are selected |
| SocialMetrics.ValidRequestSkipsAdSense | backend/app/Http/Controllers/Api/SocialMetricsController.php:48-53 | a valid non-empty platform list names only the six social platforms, so no AdSense account is selected |
| SocialMetrics.ServiceForSpec | backend/app/Http/Controllers/Api/SocialMetricsController.php:180-193 | facebook, instagram, tiktok and youtube each have their own service; the other platforms have none |
| SocialMetrics.SyncSpec | backend/app/Http/Controllers/Api/SocialMetricsController.php:175-202 | unauthorized is forbidden; a platform without a service succeeds without a call; a thrown service gives 500 with its message; success iff authorized and nothing thrown, with the message `Synchronisation rÃ©ussie` as spelled in the code |
| SocialMetrics.SyncMessageDoubleEncoded | backend/app/Http/Controllers/Api/SocialMetricsController.php:195 | as written: the success message is `Synchronisation réussie` with the two UTF-8 bytes of `é` read back as Latin-1, so it differs from the intended text |
| SocialMetrics.SyncIntended | backend/app/Http/Controllers/Api/AnalyticsController.php:200 | corrected: `sync` answers as before, but a success carries `Synchronisation réussie`, the analytics controller's message |
| SocialMetrics.PostsQuerySpec | backend/app/Http/Controllers/Api/SocialMetricsController.php:140-157 | refused iff invalid; defaults to `published_at`, `desc`, 50; the limit lies in 1..100 and the sort key and order are among the allowed ones |
| SocialMetrics.SortByViewsNamesNoColumn | backend/app/Http/Controllers/Api/SocialMetricsController.php:147-168 | as written: `sort_by=views` is accepted and passed to `orderBy`, but `views` is not a column of `social_posts` |
| SocialMetrics.PostsQueryFixedOrdersByColumn | backend/app/Http/Controllers/Api/SocialMetricsController.php:147-168 | corrected: every accepted query orders by an existing column, with the same validation and default |
| Analytics.SucceededConcat | backend/app/Http/Controllers/Api/AnalyticsController.php:66-107 | the accounts that answered, of two lists, are those of each, in order |
| Analytics.MergeInto | backend/app/Http/Controllers/Api/AnalyticsController.php:90-103 | the `foreach` merge computes `Merge(acc, src)` |
| Analytics.MergeCommutes | backend/app/Http/Controllers/Api/AnalyticsController.php:90-103 | the key-wise merge does not depend on order |
| Analytics.MergeAssociates | backend/app/Http/Controllers/Api/AnalyticsController.php:90-103 | the key-wise merge is associative |
| Analytics.MergeEmpty | backend/app/Http/Controllers/Api/AnalyticsController.php:58-60 | the empty map is neutral for the merge |
| Analytics.MergeAllEntry | backend/app/Http/Controllers/Api/AnalyticsController.php:90-103 | a merged key's value is the sum of the maps' values for it, 0 where absent |
| Analytics.MergeAllKeys | backend/app/Http/Controllers/Api/AnalyticsController.php:90-103 | the merged keys are the union of the maps' keys |
| Analytics.AddSite | backend/app/Http/Controllers/Api/AnalyticsController.php:74-103 | one answering account adds its sums, its reported rates and its maps to the running state |
| Analytics.ComputeOverview | backend/app/Http/Controllers/Api/AnalyticsController.php:48-116 | the loop, with its try/catch and the averages after it, computes `OverviewOf` |
| Analytics.NoSites | backend/app/Http/Controllers/Api/AnalyticsController.php:48-61 | with no accounts, all figures are 0 and the maps are empty |
| Analytics.FailureContributesNothing | backend/app/Http/Controllers/Api/AnalyticsController.php:104-106 | an account whose call throws contributes nothing; the rest are still aggregated |
| Analytics.TotalsAdd | backend/app/Http/Controllers/Api/AnalyticsController.php:74-80 | a total over two lists of accounts is the sum of their totals (absent counted as 0) |
| Analytics.AverageBounceRate | backend/app/Http/Controllers/Api/AnalyticsController.php:82-112 | the average bounce rate is 0 when no account reported one, otherwise the mean of the reported ones, and lies within their bounds |
| Analytics.AverageSessionDuration | backend/app/Http/Controllers/Api/AnalyticsController.php:85-115 | the same rule for session duration |
| Analytics.MeanBounds | backend/app/Http/Controllers/Api/AnalyticsController.php:110-115 | mean-or-zero: 0 for none; times the count it gives the sum; it lies between the bounds of the values |
| Analytics.ReportedSpec | backend/app/Http/Controllers/Api/AnalyticsController.php:82-87 | the reported values are those of the accounts that set the key, in order |
| Analytics.MergedSources | backend/app/Http/Controllers/Api/AnalyticsController.php:89-103 | traffic sources and devices hold exactly the keys some answering account gave, each with the sum of their values |
| Analytics.TrafficSources | backend/app/Http/Controllers/Api/AnalyticsController.php:227-245 | the endpoint's loop merges every answering account's sources and skips failures |
| Analytics.TrafficSourcesSpec | backend/app/Http/Controllers/Api/AnalyticsController.php:227-245 | a source is present iff some answering account gave it, with the sum of their values |
| Analytics.SelectedSitesSpec | backend/app/Http/Controllers/Api/AnalyticsController.php:41-47 | exactly the active accounts, narrowed to the property only when `property_id` is non-empty in PHP's sense, each as often as stored, in order |
| Analytics.ZeroPropertyIdDoesNotNarrow | backend/app/Http/Controllers/Api/AnalyticsController.php:43 | `property_id` = `"0"` is empty in PHP's sense and selects every active account |
| Analytics.TopPagesLimitSpec | backend/app/Http/Controllers/Api/AnalyticsController.php:250-267 | a reversed window is refused; the limit must lie in 1..50 and defaults to 10 |
| Analytics.OverviewEndpoint | backend/app/Http/Controllers/Api/AnalyticsController.php:30-118 | refused iff end < start; otherwise the overview of the selected accounts' answers |
| DashboardPolicy.UpdateImpliesView | backend/app/Policies/DashboardPolicy.php:13-24 | whoever may update may view |
| DashboardPolicy.DeleteAgreesWithUpdate | backend/app/Policies/DashboardPolicy.php:21-32 | delete and update always agree |
| DashboardPolicy.NonOwner | backend/app/Policies/DashboardPolicy.php:13-32 | a non-owner views iff the dashboard is shared, and never updates or deletes |
| DashboardPolicy.SharingOpensView | backend/app/Policies/DashboardPolicy.php:13-32 | a shared dashboard is viewable by all; sharing does not change the owner's rights |
| Dashboards.ClearDefaults | backend/app/Http/Controllers/Api/DashboardController.php:29-31 | the user's dashboards lose `is_default`; every other field and every other user's dashboard is unchanged |
| Dashboards.Find | backend/app/Http/Controllers/Api/DashboardController.php:38-98 | route-model binding: the position of the dashboard with the id, or none iff there is none |
| Dashboards.ClearDefaultsSpec | backend/app/Http/Controllers/Api/DashboardController.php:29-31 | other users' dashboards are untouched, this user has no default left, only `is_default` changes, and at most one default per user is kept |
| Dashboards.StoreKeepsOneDefault | backend/app/Http/Controllers/Api/DashboardController.php:29-35 | creating, after clearing when `is_default` is asked, keeps at most one default per user |
| Dashboards.UpdateKeepsOneDefault | backend/app/Http/Controllers/Api/DashboardController.php:56-62 | updating, clearing others only when the target is not yet default, keeps at most one default per user |
| Dashboards.UpdateKeeps | backend/app/Http/Controllers/Api/DashboardController.php:48-62 | an update keeps every id, share token and `is_shared` |
| Dashboards.WritesLeaveSharing | backend/app/Http/Controllers/Api/DashboardController.php:19-63 | store creates an unshared dashboard with no token; update never changes sharing, id or owner |
| Dashboards.ShareIdempotent | backend/app/Http/Controllers/Api/DashboardController.php:76-85 | sharing twice is sharing once; an existing token is kept; otherwise the fresh token is stored and `is_shared` set |
| Dashboards.SharingKeepsTokenIffShared | backend/app/Http/Controllers/Api/DashboardController.php:76-95 | share and unshare keep "token present iff shared" and change nothing but those two fields |
| Dashboards.ReshareDrawsNewToken | backend/app/Http/Controllers/Api/DashboardController.php:76-95 | sharing after unsharing stores the new token |
| Dashboards.WithoutSpec | backend/app/Http/Controllers/Api/DashboardController.php:65-70 | deleting removes exactly that dashboard and keeps the others in order |
| Dashboards.WithoutKeeps | backend/app/Http/Controllers/Api/DashboardController.php:65-70 | deleting keeps ids distinct and bounded, token iff shared, and one default per user |
| Dashboards.DashboardStore.constructor | backend/app/Http/Controllers/Api/DashboardController.php:19-36 | the table starts empty and is valid |
| Dashboards.DashboardStore.Store | backend/app/Http/Controllers/Api/DashboardController.php:19-36 | invalid input is refused with nothing changed; otherwise the user's defaults are cleared only when `is_default` is true, and exactly one new, unshared dashboard is appended and returned |
| Dashboards.DashboardStore.Show | backend/app/Http/Controllers/Api/DashboardController.php:38-42 | 404 for a missing dashboard, 403 without view permission, otherwise the dashboard |
| Dashboards.DashboardStore.Update | backend/app/Http/Controllers/Api/DashboardController.php:44-63 | 404, then 403 without update permission, then 422 for invalid input, each with nothing changed; otherwise the validated fields are written, and the user's other defaults are cleared only when the target is not already default |
| Dashboards.DashboardStore.Destroy | backend/app/Http/Controllers/Api/DashboardController.php:65-70 | 404 or 403 with nothing changed; otherwise only that dashboard is removed |
| Dashboards.DashboardStore.Share | backend/app/Http/Controllers/Api/DashboardController.php:72-86 | 404 or 403 with nothing changed; otherwise the token is kept or freshly set (with `is_shared`), and the answer is `url('/shared/' + token)` |
| Dashboards.DashboardStore.Unshare | backend/app/Http/Controllers/Api/DashboardController.php:88-98 | 404 or 403 with nothing changed; otherwise the token is cleared and `is_shared` is false |

Where the code and its description disagree, the model follows the code:

- Auto-mapping does not keep a field to one column (`RevenueImport.TwoColumnsOneField`).
- The template's `Gains_Estimes` column is not auto-mapped (`RevenueImport.TemplateEarningsColumnUnmapped`).
- The platform `engagement_rate` of the social overview is always 0 (`SocialMetrics.NoEngagementRateKind`).
- A request to the social endpoints cannot name `adsense` (`SocialMetrics.ValidRequestSkipsAdSense`).
- A `property_id` of `"0"` does not narrow the analytics accounts (`Analytics.ZeroPropertyIdDoesNotNarrow`).
- The reading of `01/02/2024` as 1 February 2024 holds only when the host's date parser refuses that text. `ImportRows.ExampleImport` therefore requires it.

## Left out

- File reading and parsing: Papa Parse, SheetJS and FileReader. A handler receives the parsed columns and rows, or none when parsing threw; boolean and date cells are not modelled.
- The host's date parsing, `toISOString`, `String(x)`, `toFixed(2)`, and `parseInt`/`parseFloat` on metric cells. They are parameters, and double rounding is not modelled.
- The progress bar, the toasts and the `await` yields of the import. The import's `catch` branch is not modelled: nothing in the modelled loop can throw.
- The template download and the CSV Blob download: `ExportFileName` gives only the file name.
- `platformDistribution` (chart names and colours only).
- The `fr-FR` date label of `dailyRevenue`. `topEarningDays` sorts the daily list and does not use the label.
- `refreshData` and the mock generators, which draw from `Math.random`.
- Carbon's date validation: dates are ISO strings that are assumed well formed.
- The database date windows, ordering and pagination of `posts`; only its parameters are modelled.
- The social `accounts` and `metrics` endpoints, and the analytics `accounts`, `metrics`, `realtime` and `sync` endpoints. They are thin lookups or calls into services; the account selection they share is `SelectedAccounts`.
- The platform service calls of `sync`: a thrown message is a parameter. `SocialAccountPolicy` is not part of this model, so the authorization verdict is a parameter too.
- The analytics service: each account's answer (or failure) is a parameter. The `top_pages` map of the overview is never filled by the code and is left out.
- Analytics.TopPagesLimitSpec: the required `property_id`, the lookup that answers 404 when it is unknown, and the service call are not modelled; only the window and limit rules are.
- PHP array key order in the merged maps and the `platforms` map: maps are unordered here.
- Dashboards.DashboardStore.Share: `Str::random(32)` is a 32-character parameter. The unique `share_token` column is not modelled, so neither is a collision.
- Dashboards.DashboardStore.Update: the validated fields are written as given; Eloquent's timestamps and dirty tracking are not modelled.
- Text.LowerChar: only the capitals of Basic Latin, Latin-1 and Latin Extended-A are folded. Greek, Cyrillic and other scripts are kept, and so are U+0130 (which `toLowerCase` turns into two characters) and the final-sigma rule.
- RevenueImport.FirstMatch: column names are lower-cased by `Text.Lower`, so a capital outside the Latin blocks above is not folded.
- Posts.SearchIsSubstring: content and query are lower-cased by `Text.Lower`, so a capital outside the Latin blocks above is not folded.
- Posts.SearchIgnoresCase: it holds for the folding of `Text.Lower`, which leaves capitals outside the Latin blocks above as they are.
- DataImport.ImportPage.ChangeMapping: it requires the column to be one of the loaded columns. The page offers only those.

## Findings

| source | as written | input that shows it | evidently intended | confidence | as-written member | corrected member |
|---|---|---|---|---|---|---|
| backend/app/Http/Controllers/Api/SocialMetricsController.php:147-168 | `sort_by` is validated against `published_at, views, likes, engagement` and passed straight to `orderBy`. The `social_posts` table has `views_count`, `likes_count` and `engagement_rate`, but no `views`, `likes` or `engagement` column (backend/database/migrations/2024_01_01_000003_create_social_posts_table.php:19-24). | `GET posts?start_date=2024-01-01&end_date=2024-01-31&sort_by=views`: an unknown-column query error | each accepted sort key orders by its column | not executed | SocialMetrics.SortByViewsNamesNoColumn | SocialMetrics.PostsQueryFixedOrdersByColumn |
| backend/app/Http/Controllers/Api/SocialMetricsController.php:195 | the success message of `sync` is written `'Synchronisation rÃ©ussie'`: the UTF-8 bytes of `é` were decoded once more as Latin-1. The analytics controller writes `'Synchronisation réussie'` (backend/app/Http/Controllers/Api/AnalyticsController.php:200). | any successful `POST` to the social `sync` endpoint: the client receives `Synchronisation rÃ©ussie` | the message reads `Synchronisation réussie` | not executed | SocialMetrics.SyncMessageDoubleEncoded | SocialMetrics.SyncIntended |
