# Admin dashboard core, modelled in Dafny

This project models the administration area of a construction-management web
platform, a Next.js application. The area has a shell and four panels:

- **Shell** (`app/admin/page.tsx`): the fixed list of thirteen navigation
  entries, grouped by category for the sidebar, the choice of panel for the
  active tab, the tab-change handler, and `logAuditEvent`. That callback
  builds an `audit_logs` row and never lets a failure escape.
- **Platform integrations** (`app/admin/PlatformIntegrationModule.tsx`): a
  catalog of integrations. Saved rows from `platform_integrations` are
  overlaid on it, and it is filtered by category tab and search term. The
  panel counts totals per category, opens and edits a configuration form,
  and upserts configurations and on/off toggles.
- **AI integration** (`app/admin/AIIntegrationModule.tsx`): AI services and
  their usage metrics. Mock services and randomly generated metrics fill in
  when the database gives nothing. The panel computes totals (requests,
  cost, mean latency, success rate) and toggles a service's status.
- **Reports** (`app/admin/ReportsModule.tsx`): the monthly report. It
  summarises projects, documents and income/expense records, inserts the
  report row with its PDF path, and handles e-mail sending and the download
  name.
- **KPI dashboard** (`app/admin/KPIsDashboard.tsx`): the headline figures.
  Counts and revenue come from the database, with fixed fallbacks. The four
  chart series are generated from random draws.

Each component's state is a Dafny `class`, and its handlers are methods that
change that state. The computations the handlers rely on are pure functions
with lemmas about them:

- the catalog merge
- the filter
- the statistics
- the report content
- the totals
- the series points

Loops in the source stay loops:

- the metric generator's nested `for` loops
- the four chart loops that count down
- the `forEach` that groups the sidebar

Each of those methods is proved equal to a function that gives the element
at every position.

The backing store is not called. Each read is an input of type
`Reply<T>`:

- `Rows(rows)`: the query returned rows.
- `NoData`: the query returned `data: null`.
- `Failed`: the query returned an error object.
- `Threw`: the call raised an exception.

Each write is an input of type `Write`: `Written`, `WriteFailed` or
`WriteThrew`.

Other JavaScript behaviour is written out:

- `Math.random()` is a real `u` with `0 <= u < 1`, and
  `Math.floor(Math.random() * n)` is `FloorRandom(u, n)`.
- Dates, locale labels and timestamps are string parameters.
- Truthiness is explicit: the `Value` type and the `Truthy` predicate.
- `x || d` on a number is `OrDefault`, and `data?.length || d` is `CountOr`.

Modules:

- `Common`: replies, writes, JavaScript values.
- `Seqs`: `filter`, `find`, `reduce` as `Keep`, `Find`, `SumBy`.
- `Text`: `toLowerCase`, `includes`, decimal rendering.
- `Audit`
- `AdminShell`
- `PlatformIntegrations`
- `AIIntegration`
- `Reports`
- `KpisDashboard`

Three behaviours of the code are worth stating plainly, since a reader might
expect otherwise:

- `handleToggleService` updates its own list of services in place and does
  not re-read it from the database (`app/admin/AIIntegrationModule.tsx`,
  lines 222-225).
- `generateMonthlyReport` destructures only `{ data }` from the insert and
  never looks at its error, so it reloads the list even when the insert
  fails. Only a raised exception skips the reload
  (`app/admin/ReportsModule.tsx`, lines 70-89).
- Only the AI panel falls back to mock data. The integration panel falls
  back to its built-in catalog, the KPI panel to fixed figures, and the
  reports list to an empty list.

## Model

All source paths are relative to the repository root.

| member | source | states |
|---|---|---|
| Common.RowsOr | app/admin/ReportsModule.tsx:35 | `data \|\| []`: the rows of a reply that has some, the empty list for every other reply |
| Common.FloorRandom | app/admin/KPIsDashboard.tsx:96 | `Math.floor(Math.random() * n)` for `0 <= u < 1` lies in `0 .. n-1` |
| Seqs.Keep | app/admin/PlatformIntegrationModule.tsx:751 | `filter`: holds exactly the elements satisfying the predicate, in order, never more than the input |
| Seqs.Find | app/admin/page.tsx:226 | `find`: `None` exactly when no element matches; otherwise a member of the list that matches |
| Seqs.FindFirst | app/admin/PlatformIntegrationModule.tsx:727 | `find` returns the element at the first matching position: a match at `k` with none before it is what `find` gives |
| Text.Lower | app/admin/PlatformIntegrationModule.tsx:755 | `toLowerCase` keeps the length and maps every position through the letter mapping; applying it twice changes nothing (`Text.LowerIdempotent`) |
| Text.Contains | app/admin/PlatformIntegrationModule.tsx:758-759 | `includes`: true exactly when the term occurs at some position of the string |
| Text.NatToString | app/admin/AIIntegrationModule.tsx:113 | a number in a template literal: a non-empty run of decimal digits, a single digit exactly for numbers below 10 |
| Text.NatToStringRoundTrip | app/admin/KPIsDashboard.tsx:132 | reading back the digits written for a number gives that number |
| Text.NatToStringInjective | app/admin/AIIntegrationModule.tsx:113 | different numbers are written as different strings |
| Audit.Event | app/admin/page.tsx:78-84 | a call with only an action name: every optional argument is left out (falsy) |
| Audit.EventOn | app/admin/AIIntegrationModule.tsx:227 | a call with an action, a table and an optional record id; no old or new payload |
| Audit.UserAgentOf | app/admin/page.tsx:96 | the user agent is exactly the browser's first 100 characters (all of it when shorter); `Admin Browser` when there is no navigator |
| Audit.BuildAuditRecord | app/admin/page.tsx:86-98 | the fixed user id, `localhost` and the timestamp; table, record id and payloads are kept when truthy and become `null` otherwise; the user agent is the cut browser agent, or `Admin Browser` without a navigator |
| Audit.LogAuditEvent | app/admin/page.tsx:78-110 | the built record is always what gets inserted; the console stays quiet exactly on success, warns exactly on a returned error, and an exception only logs an error |
| AdminShell.NavigationItems | app/admin/page.tsx:113-205 | the navigation holds thirteen entries |
| AdminShell.NavigationIdsDistinct | app/admin/page.tsx:113-205 | no two entries share an id |
| AdminShell.FirstSeenCategories | app/admin/page.tsx:283-294 | the sidebar's category order lists every entry's category exactly once and nothing else |
| AdminShell.GroupNavigationItems | app/admin/page.tsx:283-294 | the `forEach` grouping: the keys are the categories in first-occurrence order, the dictionary has exactly those keys, and each group holds exactly its category's entries in list order |
| AdminShell.GroupingKeepsEveryItem | app/admin/page.tsx:283-294 | for any list, the groups hold exactly as many entries as the list (each entry lands in exactly one group) |
| AdminShell.SidebarHoldsEveryEntry | app/admin/page.tsx:283-294 | the sidebar's groups hold the thirteen navigation entries between them |
| AdminShell.ActiveContent | app/admin/page.tsx:223-254 | "not found" exactly when no entry has the active id; otherwise the first entry with that id; rendered without the audit callback exactly when the id is `audit` or `data-protection` |
| AdminShell.StandalonePanels | app/admin/page.tsx:236-240 | over the real navigation list, exactly the audit-log and data-protection panels render without the audit callback |
| AdminShell.Shell.constructor | app/admin/page.tsx:73-75 | the shell opens on `dashboard` with no error |
| AdminShell.Shell.HandleTabChange | app/admin/page.tsx:208-220 | the tab becomes the chosen one, the error is cleared, and `navigate_<id>` is logged |
| AdminShell.Shell.InitializeAdmin | app/admin/page.tsx:257-272 | a probe error is only a warning and `admin_panel_initialized` is logged; only an exception shows the connection error screen, and then nothing is logged |
| PlatformIntegrations.SavedFor | app/admin/PlatformIntegrationModule.tsx:727 | the saved row of a platform: a row of the reply with that platform id; none when the data is null or no row matches |
| PlatformIntegrations.Overlay | app/admin/PlatformIntegrationModule.tsx:728-735 | active exactly when `is_active` is true; the saved configuration, or `{}` when it is null; the saved last sync; every other field comes from the catalog entry |
| PlatformIntegrations.Merge | app/admin/PlatformIntegrationModule.tsx:726-736 | one card per catalog entry, in catalog order; an entry without a saved row is unchanged; one with a saved row is overlaid with it; only status, configuration and last sync can differ |
| PlatformIntegrations.MergeWithoutRows | app/admin/PlatformIntegrationModule.tsx:726-736 | with null or empty data the merge returns the catalog unchanged |
| PlatformIntegrations.MergeFirstMatchWins | app/admin/PlatformIntegrationModule.tsx:727 | when several rows share a platform id, the first one decides the card |
| PlatformIntegrations.MergeIgnoresUnknown | app/admin/PlatformIntegrationModule.tsx:726-736 | rows for platforms outside the catalog have no effect: dropping them gives the same cards |
| PlatformIntegrations.LoadedIntegrations | app/admin/PlatformIntegrationModule.tsx:706-745 | a missing client, an error reply, null data or an exception gives the catalog; rows give the merge of the catalog with them |
| PlatformIntegrations.UpsertReadBack | app/admin/PlatformIntegrationModule.tsx:782-800 | when the upserted row is read back ahead of any other row for the platform, the card shows exactly the status, configuration and last sync that were written |
| PlatformIntegrations.FilterIntegrations | app/admin/PlatformIntegrationModule.tsx:747-764 | an integration is shown exactly when its category is the tab (or the tab is `all`) and, for a non-empty term, its lower-cased name or description contains the lower-cased term |
| PlatformIntegrations.FilterIsOneKeep | app/admin/PlatformIntegrationModule.tsx:747-764 | the two successive filters equal one filter by the conjunction of both conditions |
| PlatformIntegrations.FilterKeepsOrder | app/admin/PlatformIntegrationModule.tsx:747-764 | the shown list is a subsequence of the loaded list, so order is kept |
| PlatformIntegrations.FilterAppend | app/admin/PlatformIntegrationModule.tsx:747-764 | filtering a concatenation is concatenating the filtered parts |
| PlatformIntegrations.NoFilterShowsAll | app/admin/PlatformIntegrationModule.tsx:747-764 | tab `all` with an empty search shows every integration |
| PlatformIntegrations.StatsFor | app/admin/PlatformIntegrationModule.tsx:848-852 | a category's total, active and inactive counts are the sizes of the three filters, and total = active + inactive |
| PlatformIntegrations.ByCategory | app/admin/PlatformIntegrationModule.tsx:846-856 | the `reduce` holds no entry for `all`, one for every other tab, none for anything else, and each entry is that category's counts |
| PlatformIntegrations.GetStats | app/admin/PlatformIntegrationModule.tsx:843-858 | total is the number of integrations, active the number of active ones (never above total), and the per-category map |
| PlatformIntegrations.CardStats | app/admin/PlatformIntegrationModule.tsx:976-978 | the `all` card shows total, active and total − active; another tab its map entry, or zeros when it has none |
| PlatformIntegrations.CardsAddUp | app/admin/PlatformIntegrationModule.tsx:976-978 | on every card total = active + inactive; the `all` card's inactive count is the number of inactive integrations |
| PlatformIntegrations.CategoryTotalsPartition | app/admin/PlatformIntegrationModule.tsx:846-856 | when the tab ids are distinct and every integration's category is a tab, the category totals add up to the overall total |
| PlatformIntegrations.SavePayload | app/admin/PlatformIntegrationModule.tsx:787-794 | the saved row carries the integration's id, name and category, the edited configuration, active, and the current time |
| PlatformIntegrations.TogglePayload | app/admin/PlatformIntegrationModule.tsx:818-829 | the toggle row carries the flipped status and the current configuration, and has a last sync exactly when it turns the integration on |
| PlatformIntegrations.ToggleTwiceRestores | app/admin/PlatformIntegrationModule.tsx:816-841 | toggling, reading the row back, and toggling the reloaded card again writes the original status |
| PlatformIntegrations.IntegrationPanel.constructor | app/admin/PlatformIntegrationModule.tsx:47-54 | the panel opens on tab `all`, no search, nothing loaded, no modal, no configuration, not saving |
| PlatformIntegrations.IntegrationPanel.RunFilter | app/admin/PlatformIntegrationModule.tsx:702-704 | the shown list becomes the filter of the loaded list by the current tab and term; nothing else changes |
| PlatformIntegrations.IntegrationPanel.LoadIntegrations | app/admin/PlatformIntegrationModule.tsx:706-745 | the list becomes the loaded catalog (one card per entry) and the shown list is refiltered; tab, search and modal are untouched |
| PlatformIntegrations.IntegrationPanel.SelectCategory | app/admin/PlatformIntegrationModule.tsx:983 | the tab changes and the shown list is refiltered |
| PlatformIntegrations.IntegrationPanel.Search | app/admin/PlatformIntegrationModule.tsx:922 | the search term changes and the shown list is refiltered |
| PlatformIntegrations.IntegrationPanel.ClearFilters | app/admin/PlatformIntegrationModule.tsx:947-950 | the search is emptied, the tab reset to `all`, and every integration is shown |
| PlatformIntegrations.IntegrationPanel.OpenConfigModal | app/admin/PlatformIntegrationModule.tsx:766-770 | the integration is selected, the form starts from its configuration, and the modal opens |
| PlatformIntegrations.IntegrationPanel.CloseConfigModal | app/admin/PlatformIntegrationModule.tsx:772-776 | the modal closes, the selection and the form are cleared |
| PlatformIntegrations.IntegrationPanel.HandleConfigChange | app/admin/PlatformIntegrationModule.tsx:778-780 | the field gets the new value; every other field keeps its value; no key is lost |
| PlatformIntegrations.IntegrationPanel.SaveConfiguration | app/admin/PlatformIntegrationModule.tsx:782-814 | nothing happens without a selection; otherwise the save row is written; on success the list is reloaded and the modal closed; on failure everything but the saving flag is kept; the saving flag ends false |
| PlatformIntegrations.IntegrationPanel.ToggleIntegration | app/admin/PlatformIntegrationModule.tsx:816-841 | the toggle row is written; only a clean write reloads the list; the rest of the panel is untouched |
| AIIntegration.TotalMetrics | app/admin/AIIntegrationModule.tsx:198-211 | total requests and cost are the sums; mean latency times the count is the latency sum, 0 without metrics; success rate times the requests is 100 × the successes, 0 without requests |
| AIIntegration.SuccessRateIsPercentage | app/admin/AIIntegrationModule.tsx:203 | when no metric has more successes than requests, the success rate lies between 0 and 100 |
| AIIntegration.NextStatus | app/admin/AIIntegrationModule.tsx:214 | `active` becomes `inactive`, and every other status (including `error`) becomes `active` |
| AIIntegration.ToggleTwice | app/admin/AIIntegrationModule.tsx:214 | toggling twice restores `active` and `inactive`; an `error` service ends `inactive` |
| AIIntegration.WithStatus | app/admin/AIIntegrationModule.tsx:224 | the services with the id get the new status; all others are unchanged; the length is kept |
| AIIntegration.WithStatusIdempotent | app/admin/AIIntegrationModule.tsx:224 | setting the same status twice is the same as once |
| AIIntegration.MockServices | app/admin/AIIntegrationModule.tsx:53-98 | three active language-model services, `ai_001` to `ai_003` |
| AIIntegration.MetricId | app/admin/AIIntegrationModule.tsx:113 | `metric_<service>_<day>` with the day written in decimal |
| AIIntegration.MetricIdInjective | app/admin/AIIntegrationModule.tsx:113 | for service ids of one length, the metric id determines the service and the day |
| AIIntegration.MockMetric | app/admin/AIIntegrationModule.tsx:109-121 | requests in 50..549, successes ⌊0.9 × requests⌋, errors the rest, latency in 200..2199, cost = requests × (0.001 + 0.05·u) |
| AIIntegration.GenerateOptimizedMetrics | app/admin/AIIntegrationModule.tsx:100-126 | 21 metrics; the one at position `3·day + j` is service `j` on that day |
| AIIntegration.MockIdsDistinct | app/admin/AIIntegrationModule.tsx:100-126 | the generated metrics have pairwise distinct ids |
| AIIntegration.MockSuccessRate | app/admin/AIIntegrationModule.tsx:100-126 | the totals of the generated metrics have a success rate between 0 and 100 |
| AIIntegration.AIPanel.constructor | app/admin/AIIntegrationModule.tsx:45-47 | no services, no metrics, loading |
| AIIntegration.AIPanel.LoadAIServices | app/admin/AIIntegrationModule.tsx:144-167 | the rows when there are some; the mock services after an empty or null reply, an error or an exception |
| AIIntegration.AIPanel.LoadUsageMetrics | app/admin/AIIntegrationModule.tsx:169-195 | the rows when there are some, otherwise the generated metrics; loading ends false on every path |
| AIIntegration.AIPanel.HandleToggleService | app/admin/AIIntegrationModule.tsx:213-231 | on a clean write the service's status is flipped in the list and `toggle_ai_service` is logged; on failure nothing changes and nothing is logged |
| Reports.GenerateReportContent | app/admin/ReportsModule.tsx:97-118 | the title names the month; projects split into active + completed (status `finalizado`); analysed documents never exceed the total; income and expenses are the sums of their record kinds; net profit 0; KPI rows passed through |
| Reports.FinancialPartition | app/admin/ReportsModule.tsx:112-113 | income + expenses + records of any other kind = the sum of all amounts |
| Reports.OtherKindIgnored | app/admin/ReportsModule.tsx:112-113 | adding a record that is neither income nor expense leaves the financial summary unchanged |
| Reports.PdfPath | app/admin/ReportsModule.tsx:76 | `/reports/<year>-<month>-report.pdf`, whose file name contains no slash, so a generated report downloads under its own file name |
| Reports.LastSegment | app/admin/ReportsModule.tsx:154 | `split('/').pop()`: the suffix after the last slash, which contains no slash and is preceded by one when shorter than the path |
| Reports.LastSegmentAfterSlash | app/admin/ReportsModule.tsx:154 | the last segment of `a/b` with no slash in `b` is `b` |
| Reports.DownloadName | app/admin/ReportsModule.tsx:154 | the last segment, or `report.pdf` when it is empty; never empty |
| Reports.DownloadReport | app/admin/ReportsModule.tsx:147-161 | logs `download_report` on the report and names the file by its path |
| Reports.ReportsPanel.constructor | app/admin/ReportsModule.tsx:16-21 | no reports, not generating, no recipient, the current month and year |
| Reports.ReportsPanel.LoadReports | app/admin/ReportsModule.tsx:28-39 | the rows; an empty list after a null or error reply; an exception keeps the list |
| Reports.ReportsPanel.GenerateMonthlyReport | app/admin/ReportsModule.tsx:41-95 | logs first; without an exception, builds the content from the four reads and inserts the monthly row with its PDF path, then reloads unless the insert raised; the generating flag ends false on every path |
| Reports.ReportsPanel.SendReportByEmail | app/admin/ReportsModule.tsx:120-145 | nothing without a recipient; otherwise logs `send_report_email` and marks the report; unless that raises, clears the recipient and reloads |
| Reports.ReportsPanel.SetEmailRecipient | app/admin/ReportsModule.tsx:323 | the recipient becomes the typed text |
| KpisDashboard.DefaultKpis | app/admin/KPIsDashboard.tsx:72-81 | 42 clients, 18 projects, 3247 documents, 145680 revenue, 98.7, 89250, 2.3, 96.2 |
| KpisDashboard.OrDefault | app/admin/KPIsDashboard.tsx:63 | `n \|\| d`: `n` unless it is 0, then `d` |
| KpisDashboard.CountOr | app/admin/KPIsDashboard.tsx:60-62 | `data?.length \|\| d`: the count of a non-empty result, otherwise the fallback |
| KpisDashboard.TotalRevenue | app/admin/KPIsDashboard.tsx:57 | the sum of the amounts (a missing amount counts 0), 0 when the data is null |
| KpisDashboard.ComputeKpis | app/admin/KPIsDashboard.tsx:52-68 | each count is the rows' count or its fallback; revenue is the total or 145680 when it is 0; the other four figures are fixed |
| KpisDashboard.EmptyReadsGiveDefaults | app/admin/KPIsDashboard.tsx:52-68 | when every read yields no rows, the figures are the defaults |
| KpisDashboard.ZeroRevenueShowsDefault | app/admin/KPIsDashboard.tsx:57-63 | when every amount is missing or 0, the revenue shown is 145680 |
| KpisDashboard.RevenueAt | app/admin/KPIsDashboard.tsx:94-98 | the point for month `11 − i`: revenue in 100000..149999, target 120000 |
| KpisDashboard.RevenueSeries | app/admin/KPIsDashboard.tsx:90-100 | the counting-down loop yields 12 points, the k-th being the point for month k |
| KpisDashboard.DocumentsAt | app/admin/KPIsDashboard.tsx:107-111 | processed in 50..249, errors in 1..10, for day `29 − i` |
| KpisDashboard.DocumentsSeries | app/admin/KPIsDashboard.tsx:103-113 | 30 points, the k-th being the point for day k |
| KpisDashboard.ClientsAt | app/admin/KPIsDashboard.tsx:120-124 | clients in `25 + 2k .. 39 + 2k` for the k-th month |
| KpisDashboard.ClientsSeries | app/admin/KPIsDashboard.tsx:116-126 | 12 points, the k-th being the point for month k |
| KpisDashboard.ClientsGrowth | app/admin/KPIsDashboard.tsx:122 | the trend outweighs the noise: eight or more months apart, the later month always shows more clients |
| KpisDashboard.HourLabel | app/admin/KPIsDashboard.tsx:132 | `<h>:00` with the hour in decimal, and reading the hour back from the label gives `h` |
| KpisDashboard.PerformanceAt | app/admin/KPIsDashboard.tsx:131-136 | the k-th point is labelled hour k with a load in 60..99 |
| KpisDashboard.PerformanceSeries | app/admin/KPIsDashboard.tsx:129-138 | 24 points, the k-th being the point for hour k |
| KpisDashboard.PerformanceHoursAscending | app/admin/KPIsDashboard.tsx:130-132 | the hour labels run strictly upwards from 0:00 to 23:00 |
| KpisDashboard.KpiPanel.constructor | app/admin/KPIsDashboard.tsx:18-39 | all figures 0, loading, four empty series |
| KpisDashboard.KpiPanel.LoadKPIs | app/admin/KPIsDashboard.tsx:48-86 | any exception gives the default figures; otherwise the computed figures; loading ends false; the series are untouched |
| KpisDashboard.KpiPanel.LoadChartData | app/admin/KPIsDashboard.tsx:88-139 | the four series are exactly the generated revenue, documents, clients and performance points |

## Left out

- The backing store, the network and the authentication call are not modelled as code. Each read and write is an input with its possible outcomes. The generated report's user id is an input, and a failure of the user lookup counts as a raised exception of the insert.
- The upsert's conflict key lives in the database schema, not in this code. So whether a second upsert for a platform replaces the first row is not modelled. `UpsertReadBack` and `ToggleTwiceRestores` assume the written row is the first one read back for that platform.
- Rendering, icons, `alert`, console output, the performance monitor, `cleanupMemory` and the two-second and one-and-a-half-second simulated delays are left out. They are presentation or timing, with no state the model keeps.
- Ordering of asynchronous work is left out: `Promise.all`, and a reload that races a later click. Each handler runs to completion on its inputs.
- The `view_*` audit events logged by each panel on mount are left out. They are plain `Event(...)` calls with no state.
- The Gemini insight and recommendation calls in `KPIsDashboard.tsx`, and `loadPerformanceData` in `AIIntegrationModule.tsx`, are left out. They are external services or pure random floats shown in charts, with no state the rest of the panel reads.
- The float-valued chart fields (`precision`, `velocidad`, `activos`) are left out. Metric cost and the success-rate and latency totals are exact reals, so floating-point rounding is not modelled.
- `parseFloat` of a report amount and `NaN` are left out. Amounts are integers.
- The integration catalog and its category tabs are parameters of the panel. The model does not copy the catalog's text.
- The AI panel's `activeTab`, `selectedService` and `performanceMetrics` (`app/admin/AIIntegrationModule.tsx`, lines 48-50) are left out: the first two are UI-only state, and the third is filled only by the left-out `loadPerformanceData`.
- The integration panel's `viewMode` (`app/admin/PlatformIntegrationModule.tsx`, line 55) is left out: it only switches between grid and list display.
- Text.Lower: maps only the ASCII letters `A`–`Z`, not the full Unicode case mapping of `toLowerCase`.
- Reports.ReportsPanel.GenerateMonthlyReport: returns the generated content instead of dropping it, as the source does. The source computes the content and never stores or sends it.
- `loadReports` orders by `created_at` in the database. The model takes the rows in the order given.
- `new Date(...)` and `toLocaleDateString` labels are parameters: the month and day lists, the timestamps and `monthName`.
