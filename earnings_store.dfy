/**
 * The `earnings` table the fetch route reads and upserts into: one Earning per
 * (symbol, reportDate), the table's compound unique key `symbol_reportDate`.
 */
module EarningsStore {
  import opened Wrappers
  import opened Calendar
  import opened Feed

  type Key = (string, Day)

  /** A stored row, with the columns of the Earning type; the nullable ones are Options. */
  datatype Earning = Earning(
    symbol: string,
    companyName: string,
    reportDate: Day,
    estimatedEps: Option<string>,
    lastYearReportDate: Option<string>,
    time: string,
    lastYearEps: Option<string>,
    fiscalQuarterEnding: Option<string>,
    marketCap: Option<string>,
    numberOfEstimates: Option<string>)

  function KeyOf(e: FormattedRow): Key {
    (e.symbol, e.reportDate)
  }

  /** Every stored row sits under its own (symbol, reportDate). */
  predicate Keyed(records: map<Key, Earning>) {
    forall k :: k in records ==> records[k].symbol == k.0 && records[k].reportDate == k.1
  }

  /** The `create` branch of the upsert: a new row from the formatted record. */
  function CreateColumns(e: FormattedRow): (r: Earning)
    ensures r.symbol == e.symbol && r.reportDate == e.reportDate
  {
    Earning(
      symbol := e.symbol,
      companyName := e.name,
      reportDate := e.reportDate,
      estimatedEps := Some(e.epsForecast),
      lastYearReportDate := Some(e.lastYearRptDt),
      time := e.time,
      lastYearEps := Some(e.lastYearEPS),
      fiscalQuarterEnding := Some(e.fiscalQuarterEnding),
      marketCap := Some(e.marketCap),
      numberOfEstimates := Some(e.noOfEsts))
  }

  /** The `update` branch of the upsert: every column but the key overwritten. */
  function UpdateColumns(stored: Earning, e: FormattedRow): (r: Earning)
    ensures r.symbol == stored.symbol && r.reportDate == stored.reportDate
    ensures r == CreateColumns(e).(symbol := stored.symbol, reportDate := stored.reportDate)
  {
    stored.(
      companyName := e.name,
      estimatedEps := Some(e.epsForecast),
      time := e.time,
      lastYearReportDate := Some(e.lastYearRptDt),
      lastYearEps := Some(e.lastYearEPS),
      fiscalQuarterEnding := Some(e.fiscalQuarterEnding),
      marketCap := Some(e.marketCap),
      numberOfEstimates := Some(e.noOfEsts))
  }

  /**
   * Updating the row already stored under a record's key writes exactly the row
   * that creating it would: an upsert ends in the same row either way.
   */
  lemma UpdateAgreesWithCreate(records: map<Key, Earning>, e: FormattedRow)
    requires Keyed(records) && KeyOf(e) in records
    ensures UpdateColumns(records[KeyOf(e)], e) == CreateColumns(e)
  {
    var k := KeyOf(e);
    assert records[k].symbol == k.0 && records[k].reportDate == k.1;
  }

  /** One upsert: the record's key now holds the row built from it. */
  function Upserted(records: map<Key, Earning>, e: FormattedRow): map<Key, Earning> {
    records[KeyOf(e) := CreateColumns(e)]
  }

  /** The upserts of a batch applied one after another, in batch order. */
  function ApplyUpserts(records: map<Key, Earning>, rows: seq<FormattedRow>): (r: map<Key, Earning>)
    ensures Keyed(records) ==> Keyed(r)
    decreases |rows|
  {
    if rows == [] then records
    else Upserted(ApplyUpserts(records, rows[..|rows| - 1]), rows[|rows| - 1])
  }

  function KeysOf(rows: seq<FormattedRow>): set<Key> {
    set e | e in rows :: KeyOf(e)
  }

  /** The index of the last record of the batch with key k, or -1 when none has it. */
  function LastWith(rows: seq<FormattedRow>, k: Key): (i: int)
    ensures -1 <= i < |rows|
    ensures i >= 0 ==> KeyOf(rows[i]) == k
    ensures forall j :: i < j < |rows| ==> KeyOf(rows[j]) != k
    decreases |rows|
  {
    if rows == [] then -1
    else if KeyOf(rows[|rows| - 1]) == k then |rows| - 1
    else LastWith(rows[..|rows| - 1], k)
  }

  /** After the batch, the stored keys are the old keys plus the keys of the batch. */
  lemma {:induction false} UpsertedKeys(records: map<Key, Earning>, rows: seq<FormattedRow>)
    ensures ApplyUpserts(records, rows).Keys == records.Keys + KeysOf(rows)
    decreases |rows|
  {
    if rows != [] {
      var init := rows[..|rows| - 1];
      UpsertedKeys(records, init);
      assert rows == init + [rows[|rows| - 1]];
      assert KeysOf(rows) == KeysOf(init) + {KeyOf(rows[|rows| - 1])};
    }
  }

  /**
   * Each key of the batch holds the row built from the last record of the batch
   * with that key (the last write wins); every other key keeps its old row.
   */
  lemma {:induction false} UpsertedValues(records: map<Key, Earning>, rows: seq<FormattedRow>, k: Key)
    requires k in ApplyUpserts(records, rows)
    ensures LastWith(rows, k) >= 0 ==> ApplyUpserts(records, rows)[k] == CreateColumns(rows[LastWith(rows, k)])
    ensures LastWith(rows, k) < 0 ==> k in records && ApplyUpserts(records, rows)[k] == records[k]
    decreases |rows|
  {
    if rows != [] {
      var init := rows[..|rows| - 1];
      if KeyOf(rows[|rows| - 1]) != k {
        assert LastWith(rows, k) == LastWith(init, k);
        UpsertedValues(records, init, k);
        if LastWith(init, k) >= 0 {
          assert rows[LastWith(init, k)] == init[LastWith(init, k)];
        }
      }
    }
  }

  /** A key appears in the batch exactly when some record of the batch has it. */
  lemma {:induction false} LastWithFindsKeys(rows: seq<FormattedRow>, k: Key)
    ensures LastWith(rows, k) >= 0 <==> k in KeysOf(rows)
    decreases |rows|
  {
    if rows != [] {
      var init := rows[..|rows| - 1];
      LastWithFindsKeys(init, k);
      assert rows == init + [rows[|rows| - 1]];
      assert KeysOf(rows) == KeysOf(init) + {KeyOf(rows[|rows| - 1])};
    }
  }

  /** Re-ingesting the same batch leaves the table as the first ingestion left it. */
  lemma ApplyUpsertsIdempotent(records: map<Key, Earning>, rows: seq<FormattedRow>)
    ensures ApplyUpserts(ApplyUpserts(records, rows), rows) == ApplyUpserts(records, rows)
  {
    var once := ApplyUpserts(records, rows);
    var twice := ApplyUpserts(once, rows);
    UpsertedKeys(records, rows);
    UpsertedKeys(once, rows);
    forall k | k in twice ensures twice[k] == once[k] {
      UpsertedValues(once, rows, k);
      LastWithFindsKeys(rows, k);
      if LastWith(rows, k) >= 0 {
        UpsertedValues(records, rows, k);
      }
    }
  }

  /** The rows stored under a reportDate of `today` or later: `findMany` with `gte: today`. */
  function CurrentRecords(records: map<Key, Earning>, today: Day): (r: map<Key, Earning>)
    ensures forall k :: k in r <==> k in records && records[k].reportDate >= today
    ensures forall k :: k in r ==> r[k] == records[k]
  {
    map k | k in records && records[k].reportDate >= today :: records[k]
  }

  /** `findFirst` with `gte: today` finds a row: exactly when the `findMany` result is non-empty. */
  predicate HasCurrent(records: map<Key, Earning>, today: Day): (b: bool)
    ensures b <==> CurrentRecords(records, today) != map[]
  {
    exists k :: k in records && records[k].reportDate >= today
  }

  class EarningsTable {
    var records: map<Key, Earning>

    ghost predicate Valid()
      reads this
    {
      Keyed(records)
    }

    constructor (initial: map<Key, Earning>)
      requires Keyed(initial)
      ensures Valid() && records == initial
    {
      records := initial;
    }

    /** `prisma.earnings.upsert` keyed by `symbol_reportDate`. */
    method Upsert(e: FormattedRow)
      requires Valid()
      modifies this
      ensures Valid()
      ensures records == Upserted(old(records), e)
    {
      var key := KeyOf(e);
      if key in records {
        UpdateAgreesWithCreate(records, e);
        records := records[key := UpdateColumns(records[key], e)];
      } else {
        records := records[key := CreateColumns(e)];
      }
    }

    /** The upserts of a whole batch, one record after another in batch order. */
    method UpsertAll(rows: seq<FormattedRow>)
      requires Valid()
      modifies this
      ensures Valid()
      ensures records == ApplyUpserts(old(records), rows)
    {
      var i := 0;
      while i < |rows|
        invariant 0 <= i <= |rows|
        invariant Valid()
        invariant records == ApplyUpserts(old(records), rows[..i])
      {
        Upsert(rows[i]);
        assert rows[..i + 1][..i] == rows[..i];
        i := i + 1;
      }
      assert rows[..|rows|] == rows;
    }
  }
}
