/**
 * The upstream earnings-calendar feed as both ingestion routes see it: one
 * request per planned day, the rows of each ok response stamped with that day,
 * and the per-day batches concatenated in day order.
 */
module Feed {
  import opened Wrappers
  import opened Calendar

  /** A field of an upstream row as JavaScript sees it: None for missing, undefined or null. */
  type Field = Option<string>

  /** JavaScript truthiness of a field: present and not the empty string. */
  predicate Truthy(f: Field) {
    f.Some? && f.value != ""
  }

  /** `f || fallback` */
  function Or(f: Field, fallback: string): string {
    if Truthy(f) then f.value else fallback
  }

  /** One object of the upstream `data.rows` array, with the fields the routes read. */
  datatype RawRow = RawRow(
    symbol: Field,
    name: Field,
    time: Field,
    timing: Field,
    reportDate: Field,
    lastYearRptDt: Field,
    lastYearEPS: Field,
    epsForecast: Field,
    fiscalQuarterEnding: Field,
    marketCap: Field,
    noOfEsts: Field)

  /** An entry of `data.rows`: an object, or None for a null entry. */
  type UpstreamRow = Option<RawRow>

  /** What the request for one day yields. */
  datatype Response =
    | NotOk(status: int)                    // `response.ok` is false
    | Body(rows: Option<seq<UpstreamRow>>)  // the parsed body; None when it has no `data.rows`
    | Thrown                                // `fetch` rejected or `response.json()` threw

  /** The one way a fan-out fails: some request threw, which rejects `Promise.all`. */
  datatype FeedError = UpstreamThrew

  /** The fields of an object spread from null: none at all. */
  const NoFields: RawRow :=
    RawRow(None, None, None, None, None, None, None, None, None, None, None)

  /** `{ ...row, reportDate: date }`: the row's own fields, with the request day as reportDate. */
  datatype StampedRow = StampedRow(fields: RawRow, reportDate: Day)

  function Stamp(row: UpstreamRow, date: Day): (r: StampedRow)
    ensures r.reportDate == date
    ensures row.Some? ==> r.fields == row.value
    ensures row.None? ==> r.fields == NoFields
  {
    StampedRow(if row.Some? then row.value else NoFields, date)
  }

  /** `data?.data?.rows || []` for an ok response, and [] for a non-ok one. */
  function RowsOf(resp: Response): (r: seq<UpstreamRow>)
    ensures resp.NotOk? || resp.Thrown? || resp == Body(None) ==> r == []
    ensures resp.Body? && resp.rows.Some? ==> r == resp.rows.value
  {
    match resp
    case Body(Some(rows)) => rows
    case _ => []
  }

  /** The per-day callback: the day's rows stamped with the day, or a rejection. */
  function FetchBatch(date: Day, resp: Response): (r: Result<seq<StampedRow>, FeedError>)
    ensures r.Success? <==> !resp.Thrown?
    ensures r.Success? ==> |r.value| == |RowsOf(resp)|
    ensures r.Success? ==> forall i :: 0 <= i < |r.value| ==> r.value[i] == Stamp(RowsOf(resp)[i], date)
  {
    if resp.Thrown? then Failure(UpstreamThrew)
    else Success(seq(|RowsOf(resp)|, i requires 0 <= i < |RowsOf(resp)| => Stamp(RowsOf(resp)[i], date)))
  }

  /** The row count of all responses together, null entries included. */
  function TotalRows(responses: seq<Response>): nat {
    if responses == [] then 0 else |RowsOf(responses[0])| + TotalRows(responses[1..])
  }

  predicate NoneThrew(responses: seq<Response>) {
    forall i :: 0 <= i < |responses| ==> !responses[i].Thrown?
  }

  predicate Ascending(dates: seq<Day>) {
    forall i, j :: 0 <= i < j < |dates| ==> dates[i] <= dates[j]
  }

  /** Concatenation of two collected results, rejected when either is. */
  function Join(a: Result<seq<StampedRow>, FeedError>, b: Result<seq<StampedRow>, FeedError>): Result<seq<StampedRow>, FeedError> {
    if a.Success? && b.Success? then Success(a.value + b.value) else Failure(UpstreamThrew)
  }

  /**
   * `Promise.all(dates.map(...))` followed by `.flat()`: the per-day batches in
   * day order, concatenated; rejected as a whole when any request threw.
   * `responses[i]` is what the request for `dates[i]` yielded.
   */
  function Collect(dates: seq<Day>, responses: seq<Response>): (r: Result<seq<StampedRow>, FeedError>)
    requires |dates| == |responses|
    ensures r.Success? <==> NoneThrew(responses)
    ensures r.Success? ==> |r.value| == TotalRows(responses)
    ensures r.Success? ==> forall s :: s in r.value ==> s.reportDate in dates
    decreases |dates|
  {
    if dates == [] then Success([])
    else
      var rest := Collect(dates[1..], responses[1..]);
      assert NoneThrew(responses) <==> !responses[0].Thrown? && NoneThrew(responses[1..]);
      assert forall d :: d in dates[1..] ==> d in dates;
      Join(FetchBatch(dates[0], responses[0]), rest)
  }

  /** Joining is associative, so the per-day batches can be grouped either way. */
  lemma JoinAssociative(a: Result<seq<StampedRow>, FeedError>, b: Result<seq<StampedRow>, FeedError>, c: Result<seq<StampedRow>, FeedError>)
    ensures Join(a, Join(b, c)) == Join(Join(a, b), c)
  {
    if a.Success? && b.Success? && c.Success? {
      assert a.value + (b.value + c.value) == (a.value + b.value) + c.value;
    }
  }

  /** Splitting the day list in two splits the collected rows in two. */
  lemma {:induction false} CollectAppend(d1: seq<Day>, r1: seq<Response>, d2: seq<Day>, r2: seq<Response>)
    requires |d1| == |r1| && |d2| == |r2|
    ensures Collect(d1 + d2, r1 + r2) == Join(Collect(d1, r1), Collect(d2, r2))
    decreases |d1|
  {
    if d1 == [] {
      assert d1 + d2 == d2 && r1 + r2 == r2;
      var c := Collect(d2, r2);
      if c.Success? {
        assert [] + c.value == c.value;
      }
    } else {
      var d, r := d1 + d2, r1 + r2;
      assert d[0] == d1[0] && r[0] == r1[0];
      assert d[1..] == d1[1..] + d2 && r[1..] == r1[1..] + r2;
      CollectAppend(d1[1..], r1[1..], d2, r2);
      JoinAssociative(FetchBatch(d1[0], r1[0]), Collect(d1[1..], r1[1..]), Collect(d2, r2));
    }
  }

  /** Collecting a single day yields exactly that day's callback result. */
  lemma CollectOneDay(d: Day, resp: Response)
    ensures Collect([d], [resp]) == FetchBatch(d, resp)
  {
    var b := FetchBatch(d, resp);
    if b.Success? {
      assert b.value + [] == b.value;
    }
  }

  /**
   * Collecting over days d followed by one more day is the collection over d
   * followed by that day's stamped rows: together with `CollectOneDay` this
   * fixes every collected row as a `FetchBatch` row, day by day and in order.
   */
  lemma CollectSnoc(dates: seq<Day>, responses: seq<Response>, d: Day, resp: Response)
    requires |dates| == |responses|
    ensures Collect(dates + [d], responses + [resp]) == Join(Collect(dates, responses), FetchBatch(d, resp))
  {
    CollectAppend(dates, responses, [d], [resp]);
    CollectOneDay(d, resp);
  }

  /** A leading day with a non-ok answer, or no `data.rows`, adds nothing to the collected rows. */
  lemma SoftFailureAtHead(dates: seq<Day>, responses: seq<Response>)
    requires |dates| == |responses| && 0 < |dates|
    requires responses[0].NotOk? || responses[0] == Body(None)
    ensures Collect(dates, responses) == Collect(dates[1..], responses[1..])
  {
    assert RowsOf(responses[0]) == [];
    assert |FetchBatch(dates[0], responses[0]).value| == 0;
    var tail := Collect(dates[1..], responses[1..]);
    if tail.Success? {
      assert [] + tail.value == tail.value;
    }
  }

  /**
   * A day whose request came back non-ok, or whose body has no `data.rows`,
   * contributes no rows and leaves every other day's rows as they are:
   * collecting with it equals collecting without it.
   */
  lemma SoftFailureIsIsolated(dates: seq<Day>, responses: seq<Response>, j: nat)
    requires |dates| == |responses| && j < |dates|
    requires responses[j].NotOk? || responses[j] == Body(None)
    ensures Collect(dates, responses) == Collect(dates[..j] + dates[j + 1..], responses[..j] + responses[j + 1..])
  {
    var d1, d2, r1, r2 := dates[..j], dates[j..], responses[..j], responses[j..];
    assert dates == d1 + d2 && responses == r1 + r2;
    assert d2[1..] == dates[j + 1..] && r2[1..] == responses[j + 1..];
    CollectAppend(d1, r1, d2, r2);
    SoftFailureAtHead(d2, r2);
    CollectAppend(d1, r1, d2[1..], r2[1..]);
  }

  /** Every row of an earlier day precedes every row of a later one. */
  predicate DayOrdered(rows: seq<StampedRow>) {
    forall i, j :: 0 <= i < j < |rows| ==> rows[i].reportDate <= rows[j].reportDate
  }

  lemma DayOrderedConcat(a: seq<StampedRow>, b: seq<StampedRow>, date: Day)
    requires forall k :: 0 <= k < |a| ==> a[k].reportDate == date
    requires forall k :: 0 <= k < |b| ==> date <= b[k].reportDate
    requires DayOrdered(b)
    ensures DayOrdered(a + b)
  {
    var all := a + b;
    forall i, j | 0 <= i < j < |all| ensures all[i].reportDate <= all[j].reportDate {
      if j < |a| {
        assert all[i] == a[i] && all[j] == a[j];
      } else if i < |a| {
        assert all[i] == a[i] && all[j] == b[j - |a|];
      } else {
        assert all[i] == b[i - |a|] && all[j] == b[j - |a|];
      }
    }
  }

  /** Over ascending days the collected rows come in day order. */
  lemma {:induction false} CollectInDayOrder(dates: seq<Day>, responses: seq<Response>)
    requires |dates| == |responses| && Ascending(dates)
    ensures var r := Collect(dates, responses); r.Success? ==> DayOrdered(r.value)
    decreases |dates|
  {
    if dates != [] {
      assert Ascending(dates[1..]);
      CollectInDayOrder(dates[1..], responses[1..]);
      var r := Collect(dates, responses);
      if r.Success? {
        var batch := FetchBatch(dates[0], responses[0]).value;
        var rest := Collect(dates[1..], responses[1..]).value;
        assert r.value == batch + rest;
        forall k | 0 <= k < |rest| ensures dates[0] <= rest[k].reportDate {
          assert rest[k] in rest;
          var m :| 0 <= m < |dates[1..]| && dates[1..][m] == rest[k].reportDate;
          assert dates[0] <= dates[m + 1];
        }
        DayOrderedConcat(batch, rest, dates[0]);
      }
    }
  }

  /** What the request for each planned day yields, in plan order. */
  function Responses(dates: seq<Day>, respond: Day -> Response): (r: seq<Response>)
    ensures |r| == |dates|
  {
    seq(|dates|, i requires 0 <= i < |dates| => respond(dates[i]))
  }

  /**
   * The upstream calendar endpoint: what it answers for each day, and the log
   * of the days requested from it so far.
   */
  class Upstream {
    const respond: Day -> Response
    var requested: seq<Day>

    constructor (respond: Day -> Response)
      ensures this.respond == respond && requested == []
    {
      this.respond := respond;
      requested := [];
    }

    /** One request per day, all issued together. */
    method FetchAll(dates: seq<Day>) returns (responses: seq<Response>)
      modifies this
      ensures responses == Responses(dates, respond)
      ensures requested == old(requested) + dates
    {
      responses := Responses(dates, respond);
      requested := requested + dates;
    }
  }

  /** The ten fields each route builds from a stamped row, under the upstream's names. */
  datatype FormattedRow = FormattedRow(
    symbol: string,
    name: string,
    time: string,
    reportDate: Day,
    lastYearRptDt: string,
    lastYearEPS: string,
    epsForecast: string,
    fiscalQuarterEnding: string,
    marketCap: string,
    noOfEsts: string)
}
