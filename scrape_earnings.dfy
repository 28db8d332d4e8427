/**
 * The scrape-earnings route: the same plan, fan-out and stamping as the fetch
 * route, through 2024-11-30 instead, with time read from the upstream `timing`
 * field, and with no cooldown, no table and no state of its own.
 */
module ScrapeEarnings {
  import opened Wrappers
  import opened Calendar
  import opened Feed
  import FetchEarnings

  /**
   * The route's mapping of a stamped row: every field is the raw field when
   * truthy and "" otherwise. It differs from the fetch route's mapping in one
   * field only: time comes from `timing` and falls back to "".
   */
  function FormatScrapedRow(s: StampedRow): (r: FormattedRow)
    ensures r == FetchEarnings.FormatRow(s).(time := Or(s.fields.timing, ""))
    ensures r.time == "" <==> !Truthy(s.fields.timing)
  {
    FormattedRow(
      symbol := Or(s.fields.symbol, ""),
      name := Or(s.fields.name, ""),
      time := Or(s.fields.timing, ""),
      reportDate := s.reportDate,
      lastYearRptDt := Or(s.fields.lastYearRptDt, ""),
      lastYearEPS := Or(s.fields.lastYearEPS, ""),
      epsForecast := Or(s.fields.epsForecast, ""),
      fiscalQuarterEnding := Or(s.fields.fiscalQuarterEnding, ""),
      marketCap := Or(s.fields.marketCap, ""),
      noOfEsts := Or(s.fields.noOfEsts, ""))
  }

  /** The collected rows, formatted one for one and in order. */
  function ScrapePipeline(dates: seq<Day>, responses: seq<Response>): (r: Result<seq<FormattedRow>, FeedError>)
    requires |dates| == |responses|
    ensures r.Success? <==> NoneThrew(responses)
    ensures r.Success? ==> |r.value| == TotalRows(responses)
    ensures r.Success? ==> forall i :: 0 <= i < |r.value| ==> r.value[i] == FormatScrapedRow(Collect(dates, responses).value[i])
  {
    match Collect(dates, responses)
    case Success(rows) => Success(seq(|rows|, i requires 0 <= i < |rows| => FormatScrapedRow(rows[i])))
    case Failure(e) => Failure(e)
  }

  /** `scrapeEarnings()`, as a function of today and the upstream's answers. */
  function Scrape(today: Day, respond: Day -> Response): (r: Result<seq<FormattedRow>, FeedError>)
    ensures r.Success? <==> NoneThrew(Responses(DayRange(today, EndOfNovember2024), respond))
    ensures r.Success? ==> |r.value| == TotalRows(Responses(DayRange(today, EndOfNovember2024), respond))
  {
    var dates := DayRange(today, EndOfNovember2024);
    ScrapePipeline(dates, Responses(dates, respond))
  }

  /**
   * On the same days and answers both routes succeed or fail together, give the
   * same number of rows, and agree on every row except in its time field,
   * which here is the row's own `timing` (or "").
   */
  lemma ScrapeDiffersFromFetchOnlyInTime(dates: seq<Day>, responses: seq<Response>)
    requires |dates| == |responses|
    ensures var s, f := ScrapePipeline(dates, responses), FetchEarnings.FetchPipeline(dates, responses);
      && (s.Success? <==> f.Success?)
      && (s.Success? ==> |s.value| == |f.value|)
      && (s.Success? ==> forall i :: 0 <= i < |s.value| ==>
            s.value[i] == f.value[i].(time := Or(Collect(dates, responses).value[i].fields.timing, "")))
  {
  }

  /**
   * Every scraped row is dated one of the planned days, from today through
   * 2024-11-30, and the rows come in day order; past that day nothing is planned
   * and the answer is empty.
   */
  lemma {:induction false} ScrapedRowsArePlannedDays(today: Day, respond: Day -> Response)
    ensures var r := Scrape(today, respond);
      && (r.Success? ==> forall i :: 0 <= i < |r.value| ==> today <= r.value[i].reportDate <= EndOfNovember2024)
      && (r.Success? ==> forall i, j :: 0 <= i < j < |r.value| ==> r.value[i].reportDate <= r.value[j].reportDate)
      && (today > EndOfNovember2024 ==> r == Success([]))
  {
    var dates := DayRange(today, EndOfNovember2024);
    var responses := Responses(dates, respond);
    var r := Scrape(today, respond);
    if r.Success? {
      var collected := Collect(dates, responses).value;
      forall i | 0 <= i < |r.value| ensures today <= r.value[i].reportDate <= EndOfNovember2024 {
        assert r.value[i].reportDate == collected[i].reportDate && collected[i] in collected;
        DayRangeMembers(today, EndOfNovember2024, r.value[i].reportDate);
      }
      CollectInDayOrder(dates, responses);
      forall i, j | 0 <= i < j < |r.value| ensures r.value[i].reportDate <= r.value[j].reportDate {
        assert r.value[i].reportDate == collected[i].reportDate;
        assert r.value[j].reportDate == collected[j].reportDate;
      }
    }
  }

  /**
   * `scrapeEarnings()`: the date loop through 2024-11-30 and the fan-out. Only
   * the upstream's request log changes. (`toDate` is computed and never used.)
   */
  method ScrapeEarnings(today: Day, upstream: Upstream) returns (r: Result<seq<FormattedRow>, FeedError>)
    modifies upstream
    ensures r == Scrape(today, upstream.respond)
    ensures upstream.requested == old(upstream.requested) + DayRange(today, EndOfNovember2024)
  {
    var dates := PlanDates(today, EndOfNovember2024);
    var responses := upstream.FetchAll(dates);
    r := ScrapePipeline(dates, responses);
  }
}
