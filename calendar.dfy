/**
 * Calendar days and the date planner shared by the two ingestion routes.
 * A day is a count of days since 1970-01-01; day d stands for the YYYY-MM-DD
 * string that the routes build with `toISOString().split("T")[0]`.
 */
module Calendar {
  type Day = int

  /** 2024-12-31, the last day the fetch route plans (`new Date(2024, 11, 31)`). */
  const EndOfDecember2024: Day := 20088

  /** 2024-11-30, the last day the scrape route plans (`new Date(2024, 10, 30)`). */
  const EndOfNovember2024: Day := 20057

  /** Every day from `from` through `last`, ascending; empty when `from` is past `last`. */
  function DayRange(from: Day, last: Day): (r: seq<Day>)
    ensures |r| == if from <= last then last - from + 1 else 0
    ensures forall i :: 0 <= i < |r| ==> r[i] == from + i
    decreases last + 1 - from
  {
    if from > last then [] else [from] + DayRange(from + 1, last)
  }

  /** A day is planned exactly when it lies between the two bounds. */
  lemma {:induction false} DayRangeMembers(from: Day, last: Day, d: Day)
    ensures d in DayRange(from, last) <==> from <= d <= last
  {
    var r := DayRange(from, last);
    if from <= d <= last {
      assert r[d - from] == d;
    }
  }

  /**
   * The routes' date loop: starting from today, push the current day and step
   * one day forward for as long as the current day is not past `end`.
   */
  method PlanDates(from: Day, end: Day) returns (dates: seq<Day>)
    ensures dates == DayRange(from, end)
  {
    dates := [];
    var current := from;
    while current <= end
      invariant from <= current <= if from <= end then end + 1 else from
      invariant |dates| == current - from
      invariant forall i :: 0 <= i < |dates| ==> dates[i] == from + i
      decreases end - current
    {
      dates := dates + [current];
      current := current + 1;
    }
  }
}
