/** The sitting-record store (src/stores/sit.ts): the list of sitting sessions the
    user logged or the reminder logged for them, the in-place edits made to it, and
    the per-day statistics computed from it. The id and the date and time strings
    `generateId`, `getTodayStr` and `getCurrentTimeStr` produce are arguments. */
module Sit {
  import opened Wrappers
  import opened Types
  import opened Lists

  function OnDate(date: string): SitRecord -> bool
  {
    (r: SitRecord) => r.date == date
  }

  function HasId(id: string): SitRecord -> bool
  {
    (r: SitRecord) => r.id == id
  }

  predicate RestDone(r: SitRecord) { r.restCompleted }

  function SitDuration(r: SitRecord): int { r.sitDuration }

  /** `Math.round(total / count)` for a positive count: the nearest integer, halves
      rounded up, i.e. the floor of `total / count + 1/2`. */
  function RoundedAverage(total: int, count: int): (avg: int)
    requires count > 0
    ensures 2 * total - count < 2 * avg * count <= 2 * total + count
  {
    var avg := (2 * total + count) / (2 * count);
    assert 2 * count * avg <= 2 * total + count < 2 * count * avg + 2 * count;
    avg
  }

  /** `getDailyStats(date)`: the day's sessions summed, counted and averaged. */
  function GetDailyStats(records: seq<SitRecord>, date: string): SitDailyStats
  {
    var dayRecords := Filter(records, OnDate(date));
    var totalSitTime := Sum(dayRecords, SitDuration);
    var restCount := |Filter(dayRecords, RestDone)|;
    var avgSitDuration := if |dayRecords| > 0 then RoundedAverage(totalSitTime, |dayRecords|) else 0;
    SitDailyStats(date, totalSitTime, restCount, avgSitDuration)
  }

  /** `todayRecords`: the sessions logged on `today`, in list order. */
  function TodayRecords(records: seq<SitRecord>, today: string): seq<SitRecord>
  {
    Filter(records, OnDate(today))
  }

  /** `todaySitTime`. */
  function TodaySitTime(records: seq<SitRecord>, today: string): int
  {
    Sum(TodayRecords(records, today), SitDuration)
  }

  /** `todayRestCount`. */
  function TodayRestCount(records: seq<SitRecord>, today: string): int
  {
    |Filter(TodayRecords(records, today), RestDone)|
  }

  /** `todayAvgSitDuration`. */
  function TodayAvgSitDuration(records: seq<SitRecord>, today: string): int
  {
    var count := |TodayRecords(records, today)|;
    if count > 0 then RoundedAverage(TodaySitTime(records, today), count) else 0
  }

  /** The number of sessions logged on `date`. */
  function DayCount(records: seq<SitRecord>, date: string): nat
  {
    |Filter(records, OnDate(date))|
  }

  /** What a day's statistics say: the total and the rest count are over that day's
      sessions only, at most every one of them rested, and the average is the total
      over the count to the nearest minute, or 0 on a day with no session. */
  lemma DailyStatsMeaning(records: seq<SitRecord>, date: string)
    ensures var stats, count := GetDailyStats(records, date), DayCount(records, date);
      && stats.date == date
      && stats.totalSitTime == Sum(Filter(records, OnDate(date)), SitDuration)
      && 0 <= stats.restCount <= count
      && (count == 0 ==> stats.totalSitTime == 0 && stats.restCount == 0 && stats.avgSitDuration == 0)
      && (count > 0 ==> 2 * stats.totalSitTime - count < 2 * stats.avgSitDuration * count
                          <= 2 * stats.totalSitTime + count)
  {
    var dayRecords := Filter(records, OnDate(date));
    if |dayRecords| == 0 {
      assert dayRecords == [];
    }
  }

  /** The `today*` computeds filter and fold exactly as `getDailyStats` does, so
      together they are the statistics of today's date. */
  lemma TodayIsDailyStats(records: seq<SitRecord>, today: string)
    ensures GetDailyStats(records, today) == SitDailyStats(today, TodaySitTime(records, today),
      TodayRestCount(records, today), TodayAvgSitDuration(records, today))
  {
  }

  /** Statistics add up over a list split in two. */
  lemma {:induction false} StatsAdditive(a: seq<SitRecord>, b: seq<SitRecord>, date: string)
    ensures DayCount(a + b, date) == DayCount(a, date) + DayCount(b, date)
    ensures GetDailyStats(a + b, date).totalSitTime
      == GetDailyStats(a, date).totalSitTime + GetDailyStats(b, date).totalSitTime
    ensures GetDailyStats(a + b, date).restCount
      == GetDailyStats(a, date).restCount + GetDailyStats(b, date).restCount
  {
    var fa, fb := Filter(a, OnDate(date)), Filter(b, OnDate(date));
    FilterAppend(a, b, OnDate(date));
    SumAppend(fa, fb, SitDuration);
    FilterAppend(fa, fb, RestDone);
  }

  /** The statistics of a list of one session. */
  lemma SingleStats(r: SitRecord, date: string)
    ensures DayCount([r], date) == if r.date == date then 1 else 0
    ensures GetDailyStats([r], date).totalSitTime == if r.date == date then r.sitDuration else 0
    ensures GetDailyStats([r], date).restCount == if r.date == date && r.restCompleted then 1 else 0
  {
    FilterSingleton(r, OnDate(date));
    FilterSingleton(r, RestDone);
    assert [r][1..] == [];
    assert Sum([r], SitDuration) == r.sitDuration + Sum([], SitDuration);
  }

  /** Logging a session changes only the statistics of its own date, by that session. */
  lemma AppendStats(records: seq<SitRecord>, r: SitRecord, date: string)
    ensures var before, after := GetDailyStats(records, date), GetDailyStats(records + [r], date);
      if r.date == date then
        && DayCount(records + [r], date) == DayCount(records, date) + 1
        && after.totalSitTime == before.totalSitTime + r.sitDuration
        && after.restCount == before.restCount + (if r.restCompleted then 1 else 0)
      else
        after == before
  {
    StatsAdditive(records, [r], date);
    SingleStats(r, date);
    if r.date != date {
      FilterAppend(records, [r], OnDate(date));
      FilterSingleton(r, OnDate(date));
      assert Filter(records + [r], OnDate(date)) == Filter(records, OnDate(date));
    }
  }

  /** Statistics of a list seen as the sessions before, at and after one position. */
  lemma StatsAround(pre: seq<SitRecord>, x: SitRecord, post: seq<SitRecord>, date: string)
    ensures DayCount(pre + [x] + post, date) == DayCount(pre, date) + DayCount([x], date) + DayCount(post, date)
    ensures GetDailyStats(pre + [x] + post, date).totalSitTime == GetDailyStats(pre, date).totalSitTime
      + GetDailyStats([x], date).totalSitTime + GetDailyStats(post, date).totalSitTime
    ensures GetDailyStats(pre + [x] + post, date).restCount == GetDailyStats(pre, date).restCount
      + GetDailyStats([x], date).restCount + GetDailyStats(post, date).restCount
  {
    StatsAdditive(pre + [x], post, date);
    StatsAdditive(pre, [x], date);
  }

  /** Marking session `i` rested leaves every total alone and adds one rest to its
      date exactly when it was not rested before. */
  lemma MarkStats(records: seq<SitRecord>, i: nat, date: string)
    requires i < |records|
    ensures var marked := records[i := records[i].(restCompleted := true)];
      && DayCount(marked, date) == DayCount(records, date)
      && GetDailyStats(marked, date).totalSitTime == GetDailyStats(records, date).totalSitTime
      && GetDailyStats(marked, date).restCount == GetDailyStats(records, date).restCount
           + (if records[i].date == date && !records[i].restCompleted then 1 else 0)
  {
    var x := records[i];
    var y := x.(restCompleted := true);
    var pre, post := records[..i], records[i + 1..];
    assert records == pre + [x] + post;
    assert records[i := y] == pre + [y] + post;
    StatsAround(pre, x, post, date);
    StatsAround(pre, y, post, date);
    SingleStats(x, date);
    SingleStats(y, date);
  }

  /** Removing session `i` takes exactly that session out of its date's statistics. */
  lemma RemoveStats(records: seq<SitRecord>, i: nat, date: string)
    requires i < |records|
    ensures var x, rest := records[i], RemoveAt(records, i);
      && DayCount(rest, date) == DayCount(records, date) - (if x.date == date then 1 else 0)
      && GetDailyStats(rest, date).totalSitTime
           == GetDailyStats(records, date).totalSitTime - (if x.date == date then x.sitDuration else 0)
      && GetDailyStats(rest, date).restCount
           == GetDailyStats(records, date).restCount - (if x.date == date && x.restCompleted then 1 else 0)
  {
    var x := records[i];
    var pre, post := records[..i], records[i + 1..];
    assert records == pre + [x] + post;
    assert RemoveAt(records, i) == pre + post;
    StatsAround(pre, x, post, date);
    StatsAdditive(pre, post, date);
    SingleStats(x, date);
  }

  class SitStore {
    var records: seq<SitRecord>

    /** The store before `loadRecords` has run: no sessions. */
    constructor ()
      ensures records == []
    {
      records := [];
    }

    /** `addAutoRecord`: log a session of the configured sitting interval, not yet
        followed by a rest, as logged by the reminder. */
    method AddAutoRecord(settings: Settings, id: string, date: string, time: string)
      modifies this
      ensures records == old(records) + [SitRecord(id, date, time, settings.sitIntervalMinutes, false, true)]
    {
      var record := SitRecord(id, date, time, settings.sitIntervalMinutes, false, true);
      records := records + [record];
    }

    /** `addManualRecord`: log a session the user entered. */
    method AddManualRecord(sitDuration: int, restCompleted: bool, id: string, date: string, time: string)
      modifies this
      ensures records == old(records) + [SitRecord(id, date, time, sitDuration, restCompleted, false)]
    {
      var record := SitRecord(id, date, time, sitDuration, restCompleted, false);
      records := records + [record];
    }

    /** `markRestCompleted`: the first session with the id is marked rested, nothing
        else changes; an unknown id changes nothing. */
    method MarkRestCompleted(id: string) returns (found: bool)
      modifies this
      ensures found <==> exists j :: 0 <= j < |old(records)| && old(records)[j].id == id
      ensures |records| == |old(records)|
      ensures !found ==> records == old(records)
      ensures match FindIndex(old(records), HasId(id))
        case None => records == old(records)
        case Some(i) => records == old(records)[i := old(records)[i].(restCompleted := true)]
    {
      var index := FindIndex(records, HasId(id));
      found := index.Some?;
      if index.Some? {
        var i := index.value;
        records := records[i := records[i].(restCompleted := true)];
      }
    }

    /** `deleteRecord`: the first session with the id is removed, the others keep
        their order; an unknown id changes nothing. */
    method DeleteRecord(id: string) returns (found: bool)
      modifies this
      ensures found <==> exists j :: 0 <= j < |old(records)| && old(records)[j].id == id
      ensures !found ==> records == old(records)
      ensures match FindIndex(old(records), HasId(id))
        case None => records == old(records)
        case Some(i) => records == RemoveAt(old(records), i)
    {
      var index := FindIndex(records, HasId(id));
      found := index.Some?;
      if index.Some? {
        records := RemoveAt(records, index.value);
      }
    }

    /** `getRecentStats(days)`: one entry per day, oldest first, the last one for
        today; `dateDaysAgo(k)` is the date string of the day `k` days before today. */
    method GetRecentStats(days: int, dateDaysAgo: nat -> string) returns (stats: seq<SitDailyStats>)
      ensures |stats| == if days > 0 then days else 0
      ensures forall k :: 0 <= k < |stats| ==> stats[k] == GetDailyStats(records, dateDaysAgo(|stats| - 1 - k))
      ensures |stats| > 0 ==> stats[|stats| - 1].date == dateDaysAgo(0)
    {
      stats := [];
      var i := days - 1;
      while i >= 0
        invariant i <= days - 1 && (days > 0 ==> -1 <= i)
        invariant |stats| == if days > 0 then days - 1 - i else 0
        invariant forall k :: 0 <= k < |stats| ==> stats[k] == GetDailyStats(records, dateDaysAgo(days - 1 - k))
      {
        stats := stats + [GetDailyStats(records, dateDaysAgo(i))];
        i := i - 1;
      }
    }
  }
}
