/**
 * The fetch-earnings route: a process-wide cooldown in front of an ingestion
 * run that either answers from the table (when it already holds a current
 * row) or fetches every day from today through 2024-12-31, formats the rows
 * and upserts them into the table.
 */
module FetchEarnings {
  import opened Wrappers
  import opened Calendar
  import opened Feed
  import opened EarningsStore

  /** RATE_LIMIT_SECONDS: twelve hours. */
  const RateLimitSeconds: int := 43200

  /** The cooldown window in milliseconds, the unit of `Date.now()`. */
  const RateLimitMs: int := RateLimitSeconds * 1000

  const TimeNotSupplied: string := "time-not-supplied"

  /**
   * The route's mapping of a stamped row to a record: every field is the raw
   * field when truthy and "" otherwise, except that time falls back to
   * "time-not-supplied". The stamped date string is never empty, so reportDate
   * is always the request day, whatever the upstream row carried.
   */
  function FormatRow(s: StampedRow): (r: FormattedRow)
    ensures r.reportDate == s.reportDate
    ensures r.time != ""
    ensures r.time == TimeNotSupplied <==> !Truthy(s.fields.time) || s.fields.time.value == TimeNotSupplied
    ensures r.symbol == "" <==> !Truthy(s.fields.symbol)
    ensures r.name == "" <==> !Truthy(s.fields.name)
    ensures r.epsForecast == "" <==> !Truthy(s.fields.epsForecast)
    ensures r.marketCap == "" <==> !Truthy(s.fields.marketCap)
    ensures r.noOfEsts == "" <==> !Truthy(s.fields.noOfEsts)
    ensures r.lastYearRptDt == "" <==> !Truthy(s.fields.lastYearRptDt)
    ensures r.lastYearEPS == "" <==> !Truthy(s.fields.lastYearEPS)
    ensures r.fiscalQuarterEnding == "" <==> !Truthy(s.fields.fiscalQuarterEnding)
    ensures Truthy(s.fields.symbol) ==> r.symbol == s.fields.symbol.value
    ensures Truthy(s.fields.name) ==> r.name == s.fields.name.value
    ensures Truthy(s.fields.time) ==> r.time == s.fields.time.value
    ensures Truthy(s.fields.lastYearRptDt) ==> r.lastYearRptDt == s.fields.lastYearRptDt.value
    ensures Truthy(s.fields.lastYearEPS) ==> r.lastYearEPS == s.fields.lastYearEPS.value
    ensures Truthy(s.fields.epsForecast) ==> r.epsForecast == s.fields.epsForecast.value
    ensures Truthy(s.fields.fiscalQuarterEnding) ==> r.fiscalQuarterEnding == s.fields.fiscalQuarterEnding.value
    ensures Truthy(s.fields.marketCap) ==> r.marketCap == s.fields.marketCap.value
    ensures Truthy(s.fields.noOfEsts) ==> r.noOfEsts == s.fields.noOfEsts.value
  {
    FormattedRow(
      symbol := Or(s.fields.symbol, ""),
      name := Or(s.fields.name, ""),
      time := Or(s.fields.time, TimeNotSupplied),
      reportDate := s.reportDate,
      lastYearRptDt := Or(s.fields.lastYearRptDt, ""),
      lastYearEPS := Or(s.fields.lastYearEPS, ""),
      epsForecast := Or(s.fields.epsForecast, ""),
      fiscalQuarterEnding := Or(s.fields.fiscalQuarterEnding, ""),
      marketCap := Or(s.fields.marketCap, ""),
      noOfEsts := Or(s.fields.noOfEsts, ""))
  }

  /**
   * `filter(Boolean)` runs after the stamping, when every element is an object,
   * so it keeps every row: a null upstream entry becomes a record with nothing
   * but its reportDate and the default time.
   */
  lemma NullRowBecomesBlankRecord(date: Day)
    ensures FormatRow(Stamp(None, date)) == FormattedRow("", "", TimeNotSupplied, date, "", "", "", "", "", "")
  {
  }

  /** The collected rows, formatted one for one and in order. */
  function FetchPipeline(dates: seq<Day>, responses: seq<Response>): (r: Result<seq<FormattedRow>, FeedError>)
    requires |dates| == |responses|
    ensures r.Success? <==> NoneThrew(responses)
    ensures r.Success? ==> |r.value| == TotalRows(responses)
    ensures r.Success? ==> forall i :: 0 <= i < |r.value| ==> r.value[i].reportDate in dates
    ensures r.Success? ==> forall i :: 0 <= i < |r.value| ==> r.value[i] == FormatRow(Collect(dates, responses).value[i])
  {
    match Collect(dates, responses)
    case Success(rows) =>
      assert forall i :: 0 <= i < |rows| ==> rows[i] in rows;
      Success(seq(|rows|, i requires 0 <= i < |rows| => FormatRow(rows[i])))
    case Failure(e) => Failure(e)
  }

  /** What a successful ingestion answers with. */
  datatype Payload =
    | Cached(records: map<Key, Earning>)  // the stored rows from today on, with the table's column names
    | Fresh(rows: seq<FormattedRow>)      // this run's formatted rows, with the upstream's field names

  /** The outcome of `fetchEarnings`: its result, the table after it, and the days it requested. */
  datatype Ingestion = Ingestion(result: Result<Payload, FeedError>, records: map<Key, Earning>, requested: seq<Day>)

  /** `fetchEarnings`, as a function of the table, today and the upstream's answers. */
  function Ingest(records: map<Key, Earning>, today: Day, respond: Day -> Response): (r: Ingestion)
    ensures HasCurrent(records, today) ==> r.requested == [] && r.records == records
    ensures !HasCurrent(records, today) ==> r.requested == DayRange(today, EndOfDecember2024)
    ensures r.result.Failure? <==> !HasCurrent(records, today) && !NoneThrew(Responses(r.requested, respond))
    ensures r.result.Failure? ==> r.records == records
    ensures Keyed(records) ==> Keyed(r.records)
  {
    if HasCurrent(records, today) then
      Ingestion(Success(Cached(CurrentRecords(records, today))), records, [])
    else
      var dates := DayRange(today, EndOfDecember2024);
      match FetchPipeline(dates, Responses(dates, respond))
      case Failure(e) => Ingestion(Failure(e), records, dates)
      case Success(rows) => Ingestion(Success(Fresh(rows)), ApplyUpserts(records, rows), dates)
  }

  /** The three answers of the route's GET. */
  datatype HttpResponse =
    | Ok200(data: Payload)
    | TooManyRequests429
    | ServerError500

  /** Everything a GET reads and changes: lastFetchTime, the table and the upstream's request log. */
  datatype RouteState = RouteState(lastFetchTime: int, records: map<Key, Earning>, requested: seq<Day>)

  /** The route's GET as a transition on its state; `now` is `Date.now()`. */
  function GetStep(st: RouteState, now: int, today: Day, respond: Day -> Response): (r: (HttpResponse, RouteState))
    ensures r.0 == TooManyRequests429 <==> now - st.lastFetchTime < RateLimitMs
    ensures r.0 == TooManyRequests429 ==> r.1 == st
    ensures r.0 != TooManyRequests429 ==> r.1.lastFetchTime == now
    ensures |st.requested| <= |r.1.requested| && r.1.requested[..|st.requested|] == st.requested
    ensures r.0 == ServerError500 ==> r.1.records == st.records
  {
    if now - st.lastFetchTime < RateLimitMs then (TooManyRequests429, st)
    else
      var out := Ingest(st.records, today, respond);
      var resp := if out.result.Success? then Ok200(out.result.value) else ServerError500;
      (resp, RouteState(now, out.records, st.requested + out.requested))
  }

  /** Inside the cooldown the call is refused and nothing changes: no request, no write. */
  lemma RateLimitedCallChangesNothing(st: RouteState, now: int, today: Day, respond: Day -> Response)
    requires now - st.lastFetchTime < RateLimitMs
    ensures GetStep(st, now, today, respond) == (TooManyRequests429, st)
  {
  }

  /**
   * Once the guard passes, lastFetchTime is `now` whatever the ingestion then
   * does, so a run that ends in a 500 still arms the cooldown: a second call
   * within twelve hours is refused, and one after them passes the guard again.
   */
  lemma CooldownArmedEvenOnFailure(st: RouteState, now1: int, now2: int, today1: Day, today2: Day, respond: Day -> Response)
    requires now1 - st.lastFetchTime >= RateLimitMs
    ensures var (resp1, st1) := GetStep(st, now1, today1, respond);
      && st1.lastFetchTime == now1
      && (now1 <= now2 < now1 + RateLimitMs ==> GetStep(st1, now2, today2, respond) == (TooManyRequests429, st1))
      && (now2 >= now1 + RateLimitMs ==> GetStep(st1, now2, today2, respond).1.lastFetchTime == now2)
  {
  }

  /** With lastFetchTime still at its initial 0, any clock reading from 12:00 on 1970-01-01 passes the guard. */
  lemma FirstCallPassesGuard(records: map<Key, Earning>, requested: seq<Day>, now: int, today: Day, respond: Day -> Response)
    requires now >= RateLimitMs
    ensures GetStep(RouteState(0, records, requested), now, today, respond).0 != TooManyRequests429
  {
  }

  /**
   * When the table holds a row dated today or later, the call answers with
   * exactly the rows dated today or later, requests nothing upstream and
   * leaves the table as it was.
   */
  lemma CacheHitFetchesNothing(st: RouteState, now: int, today: Day, respond: Day -> Response)
    requires now - st.lastFetchTime >= RateLimitMs
    requires exists k :: k in st.records && st.records[k].reportDate >= today
    ensures var (resp, st1) := GetStep(st, now, today, respond);
      && resp.Ok200? && resp.data.Cached?
      && (forall k :: k in resp.data.records <==> k in st.records && st.records[k].reportDate >= today)
      && (forall k :: k in resp.data.records ==> resp.data.records[k] == st.records[k])
      && st1 == st.(lastFetchTime := now)
  {
  }

  /**
   * A fresh run requests every day from today through 2024-12-31 once, in
   * order, and answers with the rows it formatted (not the table's contents),
   * each dated one of those days and in day order.
   */
  lemma {:induction false} FreshRunAnswersFormattedRows(st: RouteState, now: int, today: Day, respond: Day -> Response)
    requires now - st.lastFetchTime >= RateLimitMs
    requires !HasCurrent(st.records, today)
    ensures var (resp, st1) := GetStep(st, now, today, respond);
      && st1.requested == st.requested + DayRange(today, EndOfDecember2024)
      && (resp.Ok200? <==> NoneThrew(Responses(DayRange(today, EndOfDecember2024), respond)))
      && (!resp.Ok200? ==> resp == ServerError500)
      && (resp.Ok200? ==> resp.data.Fresh?)
      && (resp.Ok200? ==>
            resp.data.rows == FetchPipeline(DayRange(today, EndOfDecember2024), Responses(DayRange(today, EndOfDecember2024), respond)).value)
      && (resp.Ok200? ==> |resp.data.rows| == TotalRows(Responses(DayRange(today, EndOfDecember2024), respond)))
      && (resp.Ok200? ==>
            forall i :: 0 <= i < |resp.data.rows| ==> today <= resp.data.rows[i].reportDate <= EndOfDecember2024)
      && (resp.Ok200? ==>
            forall i, j :: 0 <= i < j < |resp.data.rows| ==> resp.data.rows[i].reportDate <= resp.data.rows[j].reportDate)
  {
    var dates := DayRange(today, EndOfDecember2024);
    var responses := Responses(dates, respond);
    var resp := GetStep(st, now, today, respond).0;
    if resp.Ok200? {
      var rows := resp.data.rows;
      forall i | 0 <= i < |rows| ensures today <= rows[i].reportDate <= EndOfDecember2024 {
        DayRangeMembers(today, EndOfDecember2024, rows[i].reportDate);
      }
      CollectInDayOrder(dates, responses);
      var collected := Collect(dates, responses).value;
      forall i, j | 0 <= i < j < |rows| ensures rows[i].reportDate <= rows[j].reportDate {
        assert rows[i] == FormatRow(collected[i]) && rows[j] == FormatRow(collected[j]);
      }
    }
  }

  /**
   * After a fresh run the table's keys are the old keys plus the keys of the
   * answered rows; each such key holds the row of the last answered record
   * with that key, and every other row is left as it was.
   */
  lemma FreshRunUpsertsAnsweredRows(st: RouteState, now: int, today: Day, respond: Day -> Response)
    requires now - st.lastFetchTime >= RateLimitMs
    requires !HasCurrent(st.records, today)
    ensures var (resp, st1) := GetStep(st, now, today, respond);
      resp.Ok200? ==>
        && resp.data.Fresh?
        && st1.records.Keys == st.records.Keys + KeysOf(resp.data.rows)
        && (forall k :: k in KeysOf(resp.data.rows) ==>
              exists i :: (0 <= i < |resp.data.rows| && KeyOf(resp.data.rows[i]) == k
                           && st1.records[k] == CreateColumns(resp.data.rows[i])
                           && forall j :: i < j < |resp.data.rows| ==> KeyOf(resp.data.rows[j]) != k))
        && (forall k :: k in st.records && k !in KeysOf(resp.data.rows) ==> st1.records[k] == st.records[k])
  {
    var (resp, st1) := GetStep(st, now, today, respond);
    if resp.Ok200? {
      var rows := resp.data.rows;
      assert st1.records == ApplyUpserts(st.records, rows);
      UpsertedKeys(st.records, rows);
      forall k | k in KeysOf(rows)
        ensures exists i :: (0 <= i < |rows| && KeyOf(rows[i]) == k
                               && st1.records[k] == CreateColumns(rows[i])
                               && forall j :: i < j < |rows| ==> KeyOf(rows[j]) != k)
      {
        LastWithFindsKeys(rows, k);
        UpsertedValues(st.records, rows, k);
        var i := LastWith(rows, k);
        assert KeyOf(rows[i]) == k && st1.records[k] == CreateColumns(rows[i]);
      }
      forall k | k in st.records && k !in KeysOf(rows) ensures st1.records[k] == st.records[k] {
        LastWithFindsKeys(rows, k);
        UpsertedValues(st.records, rows, k);
      }
    }
  }

  /**
   * When some planned day's request throws, the call answers 500, writes
   * nothing, but has still requested every planned day and armed the cooldown.
   */
  lemma ThrownRequestFailsWholeRun(st: RouteState, now: int, today: Day, respond: Day -> Response, bad: Day)
    requires now - st.lastFetchTime >= RateLimitMs
    requires !HasCurrent(st.records, today)
    requires today <= bad <= EndOfDecember2024 && respond(bad).Thrown?
    ensures GetStep(st, now, today, respond) ==
      (ServerError500, RouteState(now, st.records, st.requested + DayRange(today, EndOfDecember2024)))
  {
    var dates := DayRange(today, EndOfDecember2024);
    var responses := Responses(dates, respond);
    assert responses[bad - today] == respond(bad);
    assert !NoneThrew(responses);
  }

  /** The route module: its lastFetchTime, the table it writes and the upstream it calls. */
  class FetchEarningsRoute {
    var lastFetchTime: int
    const table: EarningsTable
    const upstream: Upstream

    ghost predicate Valid()
      reads this, table
    {
      table.Valid()
    }

    ghost function State(): RouteState
      reads this, table, upstream
    {
      RouteState(lastFetchTime, table.records, upstream.requested)
    }

    /** Module load: `let lastFetchTime = 0`. */
    constructor (table: EarningsTable, upstream: Upstream)
      requires table.Valid()
      ensures Valid() && lastFetchTime == 0
      ensures this.table == table && this.upstream == upstream
    {
      lastFetchTime := 0;
      this.table := table;
      this.upstream := upstream;
    }

    /** `fetchEarnings()`: the short-circuit, the date loop, the fan-out and the upserts. */
    method FetchEarnings(today: Day) returns (r: Result<Payload, FeedError>)
      requires Valid()
      modifies table, upstream
      ensures Valid()
      ensures var out := Ingest(old(table.records), today, upstream.respond);
        && r == out.result
        && table.records == out.records
        && upstream.requested == old(upstream.requested) + out.requested
    {
      if HasCurrent(table.records, today) {
        r := Success(Cached(CurrentRecords(table.records, today)));
        return;
      }
      var dates := PlanDates(today, EndOfDecember2024);
      var responses := upstream.FetchAll(dates);
      var formatted := FetchPipeline(dates, responses);
      if formatted.Failure? {
        r := Failure(formatted.error);
        return;
      }
      table.UpsertAll(formatted.value);
      r := Success(Fresh(formatted.value));
    }

    /** The route's GET: the cooldown guard, the stamp, then the ingestion. */
    method Get(now: int, today: Day) returns (resp: HttpResponse)
      requires Valid()
      modifies this, table, upstream
      ensures Valid()
      ensures (resp, State()) == GetStep(old(State()), now, today, upstream.respond)
    {
      if now - lastFetchTime < RateLimitMs {
        resp := TooManyRequests429;
        return;
      }
      lastFetchTime := now;
      var data := FetchEarnings(today);
      if data.Success? {
        resp := Ok200(data.value);
      } else {
        resp := ServerError500;
      }
    }
  }
}
