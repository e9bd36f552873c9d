/** The drinking-record store (src/stores/water.ts): the list of logged drinks, the
    in-place edits made to it, the per-day statistics and the completion rate against
    the daily target. The id and the date and time strings are arguments; the
    percentage is computed on reals. */
module Water {
  import opened Wrappers
  import opened Types
  import opened Lists

  function OnDate(date: string): WaterRecord -> bool
  {
    (r: WaterRecord) => r.date == date
  }

  function HasId(id: string): WaterRecord -> bool
  {
    (r: WaterRecord) => r.id == id
  }

  function Cups(r: WaterRecord): int { r.cups }

  function Volume(r: WaterRecord): int { r.volume }

  function MinReal(a: real, b: real): real { if a <= b then a else b }

  /** `Math.min((cups / target) * 100, 100)` for a non-zero target. */
  function CappedRate(cups: int, target: int): (rate: real)
    requires target != 0
    ensures rate <= 100.0
    ensures rate == 100.0 <==> (cups as real / target as real) * 100.0 >= 100.0
  {
    MinReal((cups as real / target as real) * 100.0, 100.0)
  }

  /** `getDailyStats(date)`: the day's drinks summed against the daily target; the
      rate is 0 unless the target is positive. */
  function GetDailyStats(records: seq<WaterRecord>, settings: Settings, date: string): DailyStats
  {
    var dayRecords := Filter(records, OnDate(date));
    var totalCups := Sum(dayRecords, Cups);
    var totalVolume := Sum(dayRecords, Volume);
    var targetCups := settings.dailyTargetCups;
    var targetVolume := targetCups * settings.cupVolume;
    DailyStats(date, totalCups, totalVolume, targetCups, targetVolume,
      if targetCups > 0 then CappedRate(totalCups, targetCups) else 0.0)
  }

  /** `todayRecords`. */
  function TodayRecords(records: seq<WaterRecord>, today: string): seq<WaterRecord>
  {
    Filter(records, OnDate(today))
  }

  /** `todayCups`. */
  function TodayCups(records: seq<WaterRecord>, today: string): int
  {
    Sum(TodayRecords(records, today), Cups)
  }

  /** `todayVolume`. */
  function TodayVolume(records: seq<WaterRecord>, today: string): int
  {
    Sum(TodayRecords(records, today), Volume)
  }

  /** `todayCompletionRate`: 0 only for a target of exactly 0. */
  function TodayCompletionRate(records: seq<WaterRecord>, settings: Settings, today: string): real
  {
    var target := settings.dailyTargetCups;
    if target == 0 then 0.0 else CappedRate(TodayCups(records, today), target)
  }

  /** Every drink was logged with cups of `cupVolume` millilitres. */
  predicate SizedBy(records: seq<WaterRecord>, cupVolume: int)
  {
    forall i :: 0 <= i < |records| ==> records[i].volume == records[i].cups * cupVolume
  }

  lemma CappedRateSigns(cups: int, target: int)
    requires target > 0
    ensures cups >= 0 ==> CappedRate(cups, target) >= 0.0
    ensures CappedRate(cups, target) == 100.0 <==> cups >= target
  {
    var q := cups as real / target as real;
    assert q * target as real == cups as real;
    if cups >= target {
      assert q >= 1.0;
    }
    if q >= 1.0 {
      assert cups as real >= target as real;
    }
  }

  /** What a day's statistics say: the totals are over that day's drinks only, the
      targets are the configured ones, and the rate is capped at 100, reaches 100
      exactly when the target is met, and is 0 unless the target is positive. */
  lemma DailyStatsMeaning(records: seq<WaterRecord>, settings: Settings, date: string)
    ensures var stats := GetDailyStats(records, settings, date);
      && stats.date == date
      && stats.totalCups == Sum(Filter(records, OnDate(date)), Cups)
      && stats.totalVolume == Sum(Filter(records, OnDate(date)), Volume)
      && stats.targetCups == settings.dailyTargetCups
      && stats.targetVolume == settings.dailyTargetCups * settings.cupVolume
      && stats.completionRate <= 100.0
      && (settings.dailyTargetCups <= 0 ==> stats.completionRate == 0.0)
      && (settings.dailyTargetCups > 0 ==>
            (stats.completionRate == 100.0 <==> stats.totalCups >= settings.dailyTargetCups))
      && (stats.totalCups >= 0 ==> stats.completionRate >= 0.0)
  {
    var stats := GetDailyStats(records, settings, date);
    if settings.dailyTargetCups > 0 {
      CappedRateSigns(stats.totalCups, settings.dailyTargetCups);
    }
  }

  /** `todayCups` and `todayVolume` are today's totals in `getDailyStats`, and
      `todayCompletionRate` is its rate whenever the target is not negative. */
  lemma TodayIsDailyStats(records: seq<WaterRecord>, settings: Settings, today: string)
    ensures var stats := GetDailyStats(records, settings, today);
      && TodayCups(records, today) == stats.totalCups
      && TodayVolume(records, today) == stats.totalVolume
      && (settings.dailyTargetCups >= 0 ==> TodayCompletionRate(records, settings, today) == stats.completionRate)
  {
  }

  /** The two rate computations disagree for a negative target: `getDailyStats` says 0
      while `todayCompletionRate` divides by the target, so any non-zero day differs. */
  lemma RatesDifferOnNegativeTarget(records: seq<WaterRecord>, settings: Settings, today: string)
    requires settings.dailyTargetCups < 0 && TodayCups(records, today) != 0
    ensures GetDailyStats(records, settings, today).completionRate == 0.0
    ensures TodayCompletionRate(records, settings, today) != 0.0
  {
    var c, t := TodayCups(records, today), settings.dailyTargetCups;
    var q := c as real / t as real;
    assert q * t as real == c as real;
    assert q != 0.0;
  }

  /** Statistics add up over a list split in two. */
  lemma {:induction false} StatsAdditive(a: seq<WaterRecord>, b: seq<WaterRecord>, settings: Settings, date: string)
    ensures GetDailyStats(a + b, settings, date).totalCups
      == GetDailyStats(a, settings, date).totalCups + GetDailyStats(b, settings, date).totalCups
    ensures GetDailyStats(a + b, settings, date).totalVolume
      == GetDailyStats(a, settings, date).totalVolume + GetDailyStats(b, settings, date).totalVolume
  {
    var fa, fb := Filter(a, OnDate(date)), Filter(b, OnDate(date));
    FilterAppend(a, b, OnDate(date));
    SumAppend(fa, fb, Cups);
    SumAppend(fa, fb, Volume);
  }

  /** The statistics of a list of one drink. */
  lemma SingleStats(r: WaterRecord, settings: Settings, date: string)
    ensures GetDailyStats([r], settings, date).totalCups == if r.date == date then r.cups else 0
    ensures GetDailyStats([r], settings, date).totalVolume == if r.date == date then r.volume else 0
  {
    FilterSingleton(r, OnDate(date));
    assert [r][1..] == [];
    assert Sum([r], Cups) == r.cups + Sum([], Cups);
    assert Sum([r], Volume) == r.volume + Sum([], Volume);
  }

  /** Logging a drink adds its cups and volume to its own date and to no other. */
  lemma AppendStats(records: seq<WaterRecord>, r: WaterRecord, settings: Settings, date: string)
    ensures var before, after := GetDailyStats(records, settings, date), GetDailyStats(records + [r], settings, date);
      && after.totalCups == before.totalCups + (if r.date == date then r.cups else 0)
      && after.totalVolume == before.totalVolume + (if r.date == date then r.volume else 0)
  {
    StatsAdditive(records, [r], settings, date);
    SingleStats(r, settings, date);
  }

  /** Removing drink `i` takes exactly that drink out of its date's statistics. */
  lemma RemoveStats(records: seq<WaterRecord>, i: nat, settings: Settings, date: string)
    requires i < |records|
    ensures var x := records[i];
      var before, after := GetDailyStats(records, settings, date), GetDailyStats(RemoveAt(records, i), settings, date);
      && after.totalCups == before.totalCups - (if x.date == date then x.cups else 0)
      && after.totalVolume == before.totalVolume - (if x.date == date then x.volume else 0)
  {
    var x := records[i];
    var pre, post := records[..i], records[i + 1..];
    assert records == pre + [x] + post;
    assert RemoveAt(records, i) == pre + post;
    StatsAdditive(pre + [x], post, settings, date);
    StatsAdditive(pre, [x], settings, date);
    StatsAdditive(pre, post, settings, date);
    SingleStats(x, settings, date);
  }

  lemma {:induction false} SizedVolumes(records: seq<WaterRecord>, cupVolume: int)
    requires SizedBy(records, cupVolume)
    ensures Sum(records, Volume) == Sum(records, Cups) * cupVolume
  {
    if records != [] {
      SizedVolumes(records[1..], cupVolume);
    }
  }

  lemma SizedFilter(records: seq<WaterRecord>, cupVolume: int, p: WaterRecord -> bool)
    requires SizedBy(records, cupVolume)
    ensures SizedBy(Filter(records, p), cupVolume)
  {
  }

  /** While the cup size stays the same, a day's volume is its cups times the size. */
  lemma VolumeIsCupsTimesSize(records: seq<WaterRecord>, settings: Settings, date: string)
    requires SizedBy(records, settings.cupVolume)
    ensures GetDailyStats(records, settings, date).totalVolume
      == GetDailyStats(records, settings, date).totalCups * settings.cupVolume
  {
    SizedFilter(records, settings.cupVolume, OnDate(date));
    SizedVolumes(Filter(records, OnDate(date)), settings.cupVolume);
  }

  class WaterStore {
    var records: seq<WaterRecord>

    /** The store before `loadRecords` has run: no drinks. */
    constructor ()
      ensures records == []
    {
      records := [];
    }

    /** `addRecord(cups)`: log `cups` cups of the configured size. */
    method AddRecord(settings: Settings, cups: int, id: string, date: string, time: string)
      modifies this
      ensures records == old(records) + [WaterRecord(id, date, time, cups, cups * settings.cupVolume)]
      ensures SizedBy(old(records), settings.cupVolume) ==> SizedBy(records, settings.cupVolume)
    {
      var record := WaterRecord(id, date, time, cups, cups * settings.cupVolume);
      records := records + [record];
    }

    /** `deleteRecord`: the first drink with the id is removed, the others keep their
        order; an unknown id changes nothing. */
    method DeleteRecord(id: string) returns (found: bool)
      modifies this
      ensures found <==> exists j :: 0 <= j < |old(records)| && old(records)[j].id == id
      ensures match FindIndex(old(records), HasId(id))
        case None => records == old(records)
        case Some(i) => records == RemoveAt(old(records), i)
      ensures forall cupVolume :: SizedBy(old(records), cupVolume) ==> SizedBy(records, cupVolume)
    {
      var index := FindIndex(records, HasId(id));
      found := index.Some?;
      if index.Some? {
        records := RemoveAt(records, index.value);
      }
    }

    /** `getRecentStats(days)`: one entry per day, oldest first, the last one for
        today; `dateDaysAgo(k)` is the date string of the day `k` days before today. */
    method GetRecentStats(settings: Settings, days: int, dateDaysAgo: nat -> string)
      returns (stats: seq<DailyStats>)
      ensures |stats| == if days > 0 then days else 0
      ensures forall k :: 0 <= k < |stats| ==>
        stats[k] == GetDailyStats(records, settings, dateDaysAgo(|stats| - 1 - k))
      ensures |stats| > 0 ==> stats[|stats| - 1].date == dateDaysAgo(0)
    {
      stats := [];
      var i := days - 1;
      while i >= 0
        invariant i <= days - 1 && (days > 0 ==> -1 <= i)
        invariant |stats| == if days > 0 then days - 1 - i else 0
        invariant forall k :: 0 <= k < |stats| ==>
          stats[k] == GetDailyStats(records, settings, dateDaysAgo(days - 1 - k))
      {
        stats := stats + [GetDailyStats(records, settings, dateDaysAgo(i))];
        i := i - 1;
      }
    }
  }
}
