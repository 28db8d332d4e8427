# Earnings-Tracker ingestion and watchlist, modelled in Dafny

Earnings-Tracker follows upcoming company earnings reports. It pulls a
per-day earnings calendar from an upstream feed, stores it in an `earnings`
table, and keeps an in-memory watchlist. This project models the three API
routes that hold its logic:

- **fetch-earnings** (`fetch_earnings.dfy`, `earnings_store.dfy`). It has a process-wide 12-hour cooldown
  (`lastFetchTime`). Behind the cooldown, an ingestion run does one of two things:
  - If the table already has a row dated today or later, it answers with the stored rows from today on.
  - Otherwise it plans every day from today through 2024-12-31, requests each day upstream, and stamps each row with its request day. It then formats the rows and upserts them into the table, keyed by (symbol, reportDate).
- **scrape-earnings** (`scrape_earnings.dfy`). It uses the same plan, fan-out and stamping through 2024-11-30. It reads `time` from the upstream `timing` field. It has no cooldown and no table.
- **watchlist** (`watchlist.dfy`). This is a module-level list of (symbol, reportDate) entries:
  - `add` appends an entry only when it is absent.
  - `remove` filters out every equal entry.
  - Any other action changes nothing.

Both ingestion routes share two modules. `calendar.dfy` holds the date planner (`PlanDates`, the route's `while` loop). `feed.dfy` holds the per-day fan-out, the stamping and the flattening.

Modelling choices:

- **Days.** A day is an integer, counted in days since 1970-01-01. Day 20088 is 2024-12-31 and day 20057 is 2024-11-30.
- **Upstream.** The upstream is an `Upstream` object with two parts:
  - a function from day to `Response`, which is one of three cases:
    - non-ok;
    - a parsed body, with or without `data.rows`;
    - thrown, when `fetch` or `response.json()` throws;
  - a log of the days requested so far, so "no upstream request" can be stated.
- **Store.** The table is a `map` from (symbol, day) to a row of the `Earning` columns, held by the `EarningsTable` class.
- **Mutable state.** `lastFetchTime` and the watchlist array are fields of classes whose methods update them.
- **Clock.** `Date.now()` and "today" are parameters.

Two behaviours of the code that are easy to misread:

- **Falsy rows.** `filter(Boolean)` runs after each row has become `{ ...row, reportDate }`, and every such element is an object, so the filter drops nothing. A `null` upstream entry becomes a record that is blank except for its reportDate and the default time (`NullRowBecomesBlankRecord`). The output count is the count of all upstream rows (`FetchPipeline`, `ScrapePipeline`).
- **Payload shape.** A cache hit answers with stored rows under the table's column names (`companyName`, `estimatedEps`, …). A fresh run answers with the formatted rows under the upstream's field names (`name`, `epsForecast`, …). Hence the two `Payload` variants.

## Model

| member | source | states |
|---|---|---|
| `Calendar.DayRange` | src/app/api/fetch-earnings/route.ts:42-47 | the i-th planned day is today + i; there are end − today + 1 days, or none when today is past the end |
| `Calendar.DayRangeMembers` | src/app/api/fetch-earnings/route.ts:42-47 | a day is planned exactly when today ≤ day ≤ end: no gaps, nothing outside |
| `Calendar.PlanDates` | src/app/api/scrape-earnings/route.ts:27-32 | the push-and-step loop produces exactly `DayRange(today, end)` |
| `Feed.RowsOf` | src/app/api/fetch-earnings/route.ts:75-83 | a non-ok answer, a thrown request or a body without `data.rows` yields no rows; otherwise the body's `data.rows` as they are |
| `Feed.Stamp` | src/app/api/fetch-earnings/route.ts:83-86 | the stamped row carries the request day as its reportDate; an object row keeps all its fields, a null row has none |
| `Feed.FetchBatch` | src/app/api/fetch-earnings/route.ts:54-89 | a day's callback rejects iff its request threw; otherwise its i-th row is the body's i-th row stamped with that day, so rows keep their order and their data |
| `Feed.CollectOneDay` | src/app/api/fetch-earnings/route.ts:53-89 | collecting one day gives exactly that day's callback result (`FetchBatch`) |
| `Feed.CollectSnoc` | src/app/api/fetch-earnings/route.ts:53-94 | collecting days d then one more day is the collection over d followed by that day's `FetchBatch` rows; so the collected rows are the per-day `FetchBatch` rows joined in day order, each day's rows in their own order |
| `Feed.Collect` | src/app/api/fetch-earnings/route.ts:53-94 | the fan-out succeeds iff no request threw; it yields as many rows as the ok bodies hold; every row is stamped with one of the requested days; with `CollectOneDay` and `CollectAppend`, the collected rows are the per-day `FetchBatch` rows joined in day order |
| `Feed.CollectAppend` | src/app/api/fetch-earnings/route.ts:53-94 | collecting over two runs of days concatenates the two results, so each day's rows come from that day alone |
| `Feed.SoftFailureIsIsolated` | src/app/api/fetch-earnings/route.ts:75-83 | a non-ok day, or one with no `data.rows`, contributes no rows; the result equals the result of leaving that day out |
| `Feed.CollectInDayOrder` | src/app/api/fetch-earnings/route.ts:53-94 | over ascending days the flattened rows are in day order |
| `Feed.Upstream.FetchAll` | src/app/api/fetch-earnings/route.ts:53-73 | one request per planned day; the answers follow the plan order; the request log grows by exactly those days |
| `EarningsStore.CreateColumns` | src/app/api/fetch-earnings/route.ts:129-140 | a created row sits under the formatted record's own symbol and reportDate |
| `EarningsStore.UpdateColumns` | src/app/api/fetch-earnings/route.ts:119-128 | the update branch keeps the stored row's symbol and reportDate and writes every other column as the create branch would |
| `EarningsStore.UpdateAgreesWithCreate` | src/app/api/fetch-earnings/route.ts:112-141 | on a keyed table, the update branch writes the same row that the create branch would |
| `EarningsStore.ApplyUpserts` | src/app/api/fetch-earnings/route.ts:110-143 | a batch of upserts keeps every row under its own (symbol, reportDate) |
| `EarningsStore.UpsertedKeys` | src/app/api/fetch-earnings/route.ts:110-143 | after the batch, the table's keys are the old keys plus the batch's keys; nothing is deleted or duplicated |
| `EarningsStore.UpsertedValues` | src/app/api/fetch-earnings/route.ts:110-143 | each batch key holds the row of the last batch record with that key; every other key keeps its old row |
| `EarningsStore.ApplyUpsertsIdempotent` | src/app/api/fetch-earnings/route.ts:112-141 | ingesting the same batch twice leaves the table as ingesting it once |
| `EarningsStore.CurrentRecords` | src/app/api/fetch-earnings/route.ts:31-37 | holds exactly the stored rows dated today or later, unchanged |
| `EarningsStore.HasCurrent` | src/app/api/fetch-earnings/route.ts:17-29 | `findFirst` finds a row iff the `findMany` result is non-empty |
| `EarningsStore.EarningsTable.Upsert` | src/app/api/fetch-earnings/route.ts:112-141 | the record's key afterwards holds the row built from it (create or update); the table stays keyed |
| `EarningsStore.EarningsTable.UpsertAll` | src/app/api/fetch-earnings/route.ts:110-143 | the table afterwards is the old table with the batch's upserts applied in order |
| `FetchEarnings.FormatRow` | src/app/api/fetch-earnings/route.ts:96-107 | reportDate is the request day whatever the upstream row carried; every other field is the raw value when truthy and "" when falsy, except time, which falls back to "time-not-supplied" (so it is never empty) |
| `FetchEarnings.NullRowBecomesBlankRecord` | src/app/api/fetch-earnings/route.ts:83-107 | a null upstream entry survives `filter(Boolean)` as a blank record that carries its day |
| `FetchEarnings.FetchPipeline` | src/app/api/fetch-earnings/route.ts:93-107 | formatting succeeds iff no request threw; record i is `FormatRow` of the i-th collected row (day order, then row order); every record is dated a requested day |
| `FetchEarnings.Ingest` | src/app/api/fetch-earnings/route.ts:10-150 | with a current row: no request and no write; otherwise exactly the days from today through 2024-12-31 are requested; the run fails iff one of those requests threw, and a failed run writes nothing; the table stays keyed |
| `FetchEarnings.GetStep` | src/app/api/fetch-earnings/route.ts:152-194 | the answer is 429 iff the call comes within the cooldown, and then nothing changes; otherwise lastFetchTime becomes `now`; the request log only grows; a 500 leaves the table as it was |
| `FetchEarnings.RateLimitedCallChangesNothing` | src/app/api/fetch-earnings/route.ts:155-161 | within 43200·1000 ms of `lastFetchTime` the answer is 429; lastFetchTime, the table and the request log are unchanged |
| `FetchEarnings.CooldownArmedEvenOnFailure` | src/app/api/fetch-earnings/route.ts:152-194 | once the guard passes, lastFetchTime is `now` even if the run ends in 500; a call within the next 12 h is refused; a later call passes |
| `FetchEarnings.FirstCallPassesGuard` | src/app/api/fetch-earnings/route.ts:7-8 | with the initial `lastFetchTime = 0`, any clock reading of at least 43200000 ms passes the guard |
| `FetchEarnings.CacheHitFetchesNothing` | src/app/api/fetch-earnings/route.ts:17-39 | a stored row dated today or later makes the answer exactly the stored rows from today on; no upstream request; the table is unchanged |
| `FetchEarnings.FreshRunAnswersFormattedRows` | src/app/api/fetch-earnings/route.ts:42-145 | a fresh run requests each day from today through 2024-12-31 once, in order; it answers 200 iff no request threw (500 otherwise); the 200 answer is exactly the formatted rows of `FetchPipeline` over those days, one per upstream row, each dated in that range and in day order |
| `FetchEarnings.FreshRunUpsertsAnsweredRows` | src/app/api/fetch-earnings/route.ts:110-145 | after a fresh run the table's keys are the old keys plus the answered rows' keys; each such key holds the last answered record with that key; other rows are unchanged |
| `FetchEarnings.ThrownRequestFailsWholeRun` | src/app/api/fetch-earnings/route.ts:163-192 | one throwing request makes the answer 500 with no write, but every planned day was still requested and the cooldown is armed |
| `FetchEarnings.FetchEarningsRoute.constructor` | src/app/api/fetch-earnings/route.ts:8 | lastFetchTime starts at 0 |
| `FetchEarnings.FetchEarningsRoute.FetchEarnings` | src/app/api/fetch-earnings/route.ts:10-150 | result, new table and request log are those of `Ingest` on the old table |
| `FetchEarnings.FetchEarningsRoute.Get` | src/app/api/fetch-earnings/route.ts:152-194 | the answer and the new (lastFetchTime, table, request log) are those of `GetStep` on the old state |
| `ScrapeEarnings.FormatScrapedRow` | src/app/api/scrape-earnings/route.ts:78-92 | equals the fetch route's formatting except that time is the raw `timing` (not `time`), and "" iff `timing` is falsy |
| `ScrapeEarnings.ScrapePipeline` | src/app/api/scrape-earnings/route.ts:38-92 | succeeds iff no request threw; record i is `FormatScrapedRow` of the i-th collected row, one per upstream row |
| `ScrapeEarnings.Scrape` | src/app/api/scrape-earnings/route.ts:16-92 | plans today through 2024-11-30; succeeds iff none of those days' requests threw, with one record per upstream row |
| `ScrapeEarnings.ScrapeDiffersFromFetchOnlyInTime` | src/app/api/scrape-earnings/route.ts:81-92 | on the same days and answers both routes succeed together, have equally many records, and agree on every field but time |
| `ScrapeEarnings.ScrapedRowsArePlannedDays` | src/app/api/scrape-earnings/route.ts:20-32 | every scraped record is dated from today through 2024-11-30, in day order; past that day the answer is empty |
| `ScrapeEarnings.ScrapeEarnings` | src/app/api/scrape-earnings/route.ts:16-99 | the answer is `Scrape(today, answers)`; the only state change is the request log growing by the planned days |
| `Watchlist.Added` | src/app/api/watchlist/route.ts:24-38 | an entry already present leaves the list as it is; an absent one is appended last |
| `Watchlist.Removed` | src/app/api/watchlist/route.ts:41-47 | keeps exactly the entries other than the removed one; never longer than before |
| `Watchlist.Apply` | src/app/api/watchlist/route.ts:24-48 | after `add` the entry is present; after `remove` it is absent; any other action changes nothing; no entry other than the posted one is added or lost |
| `Watchlist.AddAppendsAtEnd` | src/app/api/watchlist/route.ts:33-37 | adding an absent entry appends {symbol, reportDate} last and keeps the old entries in place and in order |
| `Watchlist.AddIsIdempotent` | src/app/api/watchlist/route.ts:26-33 | adding a present entry changes nothing; adding twice equals adding once |
| `Watchlist.RemovedDistributes` | src/app/api/watchlist/route.ts:41-47 | filtering a concatenation filters each part, so the survivors keep their order |
| `Watchlist.RemoveAbsentIsNoOp` | src/app/api/watchlist/route.ts:41-47 | removing an absent entry leaves the list as it was |
| `Watchlist.RemoveIsIdempotent` | src/app/api/watchlist/route.ts:39-48 | removing twice equals removing once |
| `Watchlist.RemovedKeepsNoDuplicates` | src/app/api/watchlist/route.ts:41-47 | filtering a duplicate-free list gives a duplicate-free list |
| `Watchlist.ApplyKeepsNoDuplicates` | src/app/api/watchlist/route.ts:24-48 | every POST keeps the list free of duplicate (symbol, reportDate) entries |
| `Watchlist.NoDuplicatesFromEmpty` | src/app/api/watchlist/route.ts:4-48 | from the initial empty list, no series of POSTs yields two equal entries |
| `Watchlist.FindIndex` | src/app/api/watchlist/route.ts:26-30 | returns −1 iff the entry is absent, and otherwise the index of its first occurrence |
| `Watchlist.WatchlistRoute.constructor` | src/app/api/watchlist/route.ts:4 | the list starts empty |
| `Watchlist.WatchlistRoute.Get` | src/app/api/watchlist/route.ts:7-17 | returns the list and changes nothing |
| `Watchlist.WatchlistRoute.Post` | src/app/api/watchlist/route.ts:20-58 | the new list is `Apply(old list, earning, action)` and is what is returned; it stays duplicate-free |

## Left out

- HTTP itself is not modelled: the request URL, the browser headers, `next.revalidate`, JSON parsing, `NextResponse` bodies and the `Cache-Control` headers. A day's answer is an abstract `Response`. A `rows` value that is not an array, or a row field that is not a string (for example a numeric `noOfEsts`), is not modelled. So `String(...)` in the upsert is the identity here.
- Prisma is reduced to a map keyed by (symbol, reportDate). Its failures (an unreachable database, a rejected upsert) are not modelled. On that path the source can leave a partial batch committed and answer 500.
- `Promise.all` concurrency is sequential here: requests in plan order, upserts in batch order. With two records under one key, last write wins, which is one of the orders the source allows.
- Concurrent GETs are not modelled. Two overlapping calls could both pass the cooldown before either stamps `lastFetchTime`.
- JavaScript `Date` arithmetic is replaced by integer days. This covers:
  - the UTC date string from `toISOString()`;
  - the local-time `new Date(2024, 11, 31)` bound, which in time zones east of UTC can drop the last day;
  - `setDate` stepping across daylight-saving changes.
- `CurrentRecords` and `HasCurrent` read "reportDate ≥ today" as a comparison of days. The source compares the stored `reportDate` with the full `today.toISOString()` timestamp. What that comparison does depends on the column type, which is not part of this model. For a `YYYY-MM-DD` string column it excludes rows dated today itself.
- Logging (`console.log`, `console.warn`, `console.error`) and the error message text of the 500 answers are left out.
- The Selenium scraper (`src/app/api/scrape-earnings.ts`), the read-only listing route (`src/app/api/earnings/route.ts`), authentication, and the React pages and components are not part of this model.
- Watchlist errors are not modelled: a POST whose JSON body does not parse (a 500 in the source), and a body whose `earning` lacks `symbol` or `reportDate`.
