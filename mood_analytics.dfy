/**
 * The analytics snapshot of the mood-analytics view: an average, a trend window of the
 * last seven entries, a distribution over the five mood levels and a two-bar weekly
 * comparison, all derived from the list of mood entries it is given. Windows are taken
 * by position at the end of that list, exactly as the view does.
 */
module MoodAnalytics {
  import opened Wrappers
  import opened JsArray

  /** One mood check-in. */
  datatype MoodEntry = MoodEntry(mood: int, note: string, date: string)

  /** The five-point scale the selector offers. */
  predicate ValidMood(v: int)
  {
    1 <= v <= 5
  }

  predicate AllValid(s: seq<MoodEntry>)
  {
    forall i :: 0 <= i < |s| ==> ValidMood(s[i].mood)
  }

  /** Every window of a list on the scale is on the scale. */
  lemma SubrangeValid(s: seq<MoodEntry>, lo: int, hi: int)
    requires 0 <= lo <= hi <= |s| && AllValid(s)
    ensures AllValid(s[lo..hi])
  {
    forall i | 0 <= i < hi - lo ensures ValidMood(s[lo..hi][i].mood) {
      assert s[lo..hi][i] == s[lo + i];
    }
  }

  /** An exact quotient num / den, standing for the floating-point division of the view. */
  datatype Ratio = Ratio(num: int, den: int)

  /** q is a proper quotient lying in [lo, hi]. */
  predicate Within(q: Ratio, lo: int, hi: int)
  {
    q.den > 0 && lo * q.den <= q.num <= hi * q.den
  }

  // ----- The label and colour tables, keyed by mood level -----

  function MoodLabel(v: int): string
    requires ValidMood(v)
  {
    if v == 1 then "Sad"
    else if v == 2 then "Down"
    else if v == 3 then "Okay"
    else if v == 4 then "Good"
    else "Great"
  }

  function MoodColor(v: int): string
    requires ValidMood(v)
  {
    if v == 1 then "#ef4444"
    else if v == 2 then "#f97316"
    else if v == 3 then "#eab308"
    else if v == 4 then "#22c55e"
    else "#10b981"
  }

  /** Each level has its own label, so the distribution's slices are told apart by name. */
  lemma LabelsDistinct(v: int, w: int)
    requires ValidMood(v) && ValidMood(w) && v != w
    ensures MoodLabel(v) != MoodLabel(w)
  {
  }

  // ----- Average -----

  /** The sum the view folds with `reduce((sum, entry) => sum + entry.mood, 0)`; on the scale it lies in [n, 5n]. */
  function SumMoods(s: seq<MoodEntry>): (total: int)
    ensures AllValid(s) ==> |s| <= total <= 5 * |s|
  {
    if s == [] then 0
    else
      assert AllValid(s) ==> AllValid(s[..|s| - 1]) by {
        if AllValid(s) { SubrangeValid(s, 0, |s| - 1); }
      }
      SumMoods(s[..|s| - 1]) + s[|s| - 1].mood
  }

  /** The mean of a non-empty list of entries; on the scale it lies in [1, 5]. */
  function Mean(s: seq<MoodEntry>): (q: Ratio)
    requires |s| > 0
    ensures q.den == |s|
    ensures q.num == SumMoods(s)
    ensures AllValid(s) ==> Within(q, 1, 5)
  {
    Ratio(SumMoods(s), |s|)
  }

  // ----- Trend -----

  /** One point of the trend line. */
  datatype TrendPoint = TrendPoint(day: string, mood: int, date: string)

  function DigitChar(d: int): char
    requires 0 <= d < 10
  {
    "0123456789"[d]
  }

  /** The decimal numeral of n, as a template literal writes it. */
  function NatToString(n: nat): (r: string)
    ensures |r| > 0
    ensures n < 10 <==> |r| == 1
  {
    if n < 10 then [DigitChar(n)] else NatToString(n / 10) + [DigitChar(n % 10)]
  }

  lemma {:induction false} NatToStringInjective(a: nat, b: nat)
    requires NatToString(a) == NatToString(b)
    ensures a == b
  {
    if a < 10 {
      assert DigitChar(a) == DigitChar(b);
    } else {
      var sa, sb := NatToString(a), NatToString(b);
      assert sa[..|sa| - 1] == NatToString(a / 10);
      assert sb[..|sb| - 1] == NatToString(b / 10);
      NatToStringInjective(a / 10, b / 10);
      assert DigitChar(a % 10) == DigitChar(b % 10);
    }
  }

  /** The synthetic label `Day ${k}` of the k-th point. */
  function DayLabel(k: nat): string
  {
    "Day " + NatToString(k)
  }

  lemma DayLabelInjective(j: nat, k: nat)
    requires DayLabel(j) == DayLabel(k)
    ensures j == k
  {
    assert DayLabel(j)[4..] == NatToString(j);
    assert DayLabel(k)[4..] == NatToString(k);
    NatToStringInjective(j, k);
  }

  /**
   * `moodData.slice(-7)` relabelled: the last min(7, n) entries, in list order, the i-th
   * labelled `Day i+1` and carrying that entry's mood and date.
   */
  function TrendData(s: seq<MoodEntry>): (r: seq<TrendPoint>)
    ensures |r| == Min(7, |s|)
    ensures forall i :: 0 <= i < |r| ==>
              r[i].day == DayLabel(i + 1) && r[i].mood == s[|s| - |r| + i].mood && r[i].date == s[|s| - |r| + i].date
  {
    var w := SliceFrom(s, -7);
    seq(|w|, i requires 0 <= i < |w| => TrendPoint(DayLabel(i + 1), w[i].mood, w[i].date))
  }

  /** No two trend points share a day label. */
  lemma TrendLabelsDistinct(s: seq<MoodEntry>, i: int, j: int)
    requires 0 <= i < j < |TrendData(s)|
    ensures TrendData(s)[i].day != TrendData(s)[j].day
  {
    if TrendData(s)[i].day == TrendData(s)[j].day {
      DayLabelInjective(i + 1, j + 1);
    }
  }

  // ----- Distribution -----

  /** One slice of the distribution chart; `level` is the moodLabels key it was built from. */
  datatype DistributionItem = DistributionItem(level: int, mood: string, count: nat, percentage: Ratio, color: string)

  /** `moodData.filter(entry => entry.mood === v).length`. */
  function CountMood(s: seq<MoodEntry>, v: int): (c: nat)
    ensures c <= |s|
  {
    if s == [] then 0 else (if s[0].mood == v then 1 else 0) + CountMood(s[1..], v)
  }

  /** A level has a positive count exactly when some entry has that mood. */
  lemma {:induction false} CountMoodPositive(s: seq<MoodEntry>, v: int)
    ensures CountMood(s, v) > 0 <==> exists i :: 0 <= i < |s| && s[i].mood == v
  {
    if s != [] {
      CountMoodPositive(s[1..], v);
      if s[0].mood != v && CountMood(s, v) > 0 {
        var i :| 0 <= i < |s[1..]| && s[1..][i].mood == v;
        assert s[i + 1].mood == v;
      }
      if exists i :: 0 <= i < |s| && s[i].mood == v {
        var i :| 0 <= i < |s| && s[i].mood == v;
        if i > 0 {
          assert s[1..][i - 1].mood == v;
        }
      }
    }
  }

  /** The record built for level v: label, count, count/n*100 as an exact quotient, and colour. */
  function LevelItem(s: seq<MoodEntry>, v: int): DistributionItem
    requires ValidMood(v)
  {
    var c := CountMood(s, v);
    DistributionItem(v, MoodLabel(v), c, Ratio(c * 100, |s|), MoodColor(v))
  }

  /** The records for the table's keys 1..5, in the ascending order the keys are enumerated. */
  function LevelItems(s: seq<MoodEntry>): seq<DistributionItem>
  {
    [LevelItem(s, 1), LevelItem(s, 2), LevelItem(s, 3), LevelItem(s, 4), LevelItem(s, 5)]
  }

  predicate Ascending(items: seq<DistributionItem>)
  {
    forall i, j :: 0 <= i < j < |items| ==> items[i].level < items[j].level
  }

  function SumCounts(items: seq<DistributionItem>): int
  {
    if items == [] then 0 else items[0].count + SumCounts(items[1..])
  }

  function LevelSet(items: seq<DistributionItem>): set<int>
  {
    set i | 0 <= i < |items| :: items[i].level
  }

  /** `.filter(item => item.count > 0)`. */
  function KeepNonZero(items: seq<DistributionItem>): seq<DistributionItem>
  {
    if items == [] then []
    else if items[0].count > 0 then [items[0]] + KeepNonZero(items[1..])
    else KeepNonZero(items[1..])
  }

  /** The filter keeps exactly the items with a positive count. */
  lemma {:induction false} KeepNonZeroMembers(items: seq<DistributionItem>)
    ensures forall x :: x in KeepNonZero(items) <==> x in items && x.count > 0
  {
    if items != [] {
      KeepNonZeroMembers(items[1..]);
      assert items == [items[0]] + items[1..];
    }
  }

  /** The filter keeps the order of what it keeps. */
  lemma {:induction false} KeepNonZeroAscending(items: seq<DistributionItem>)
    requires Ascending(items)
    ensures Ascending(KeepNonZero(items))
  {
    if items != [] {
      var rest := KeepNonZero(items[1..]);
      KeepNonZeroAscending(items[1..]);
      if items[0].count > 0 {
        KeepNonZeroMembers(items[1..]);
        forall j | 0 <= j < |rest| ensures items[0].level < rest[j].level {
          assert rest[j] in items[1..];
        }
      }
    }
  }

  /** The filter drops only zero counts, so the total count is unchanged. */
  lemma {:induction false} KeepNonZeroSum(items: seq<DistributionItem>)
    ensures SumCounts(KeepNonZero(items)) == SumCounts(items)
  {
    if items != [] {
      KeepNonZeroSum(items[1..]);
      if items[0].count > 0 {
        assert ([items[0]] + KeepNonZero(items[1..]))[1..] == KeepNonZero(items[1..]);
      }
    }
  }

  /** `moodDistribution`: the per-level records with the zero counts filtered out. */
  function MoodDistribution(s: seq<MoodEntry>): seq<DistributionItem>
  {
    KeepNonZero(LevelItems(s))
  }

  /** Each of the five level records is the one built for its own level. */
  lemma LevelItemsRecords(s: seq<MoodEntry>)
    ensures forall x :: x in LevelItems(s) ==> ValidMood(x.level) && x == LevelItem(s, x.level)
  {
  }

  /**
   * Every retained record is the one built for its level, on the scale and with a
   * positive count, and the levels are strictly ascending.
   */
  lemma DistributionRecords(s: seq<MoodEntry>)
    ensures forall i :: 0 <= i < |MoodDistribution(s)| ==>
              var x := MoodDistribution(s)[i]; ValidMood(x.level) && x == LevelItem(s, x.level) && x.count > 0
    ensures Ascending(MoodDistribution(s))
  {
    var items := LevelItems(s);
    var r := KeepNonZero(items);
    KeepNonZeroMembers(items);
    KeepNonZeroAscending(items);
    LevelItemsRecords(s);
    forall i | 0 <= i < |r| ensures ValidMood(r[i].level) && r[i] == LevelItem(s, r[i].level) && r[i].count > 0 {
      assert r[i] in items;
    }
  }

  /** A level appears in the distribution exactly when some entry has that mood. */
  lemma DistributionLevels(s: seq<MoodEntry>, v: int)
    requires ValidMood(v)
    ensures v in LevelSet(MoodDistribution(s)) <==> exists i :: 0 <= i < |s| && s[i].mood == v
  {
    CountMoodPositive(s, v);
    var items := LevelItems(s);
    var r := KeepNonZero(items);
    KeepNonZeroMembers(items);
    DistributionRecords(s);
    assert items[v - 1] == LevelItem(s, v);
    if CountMood(s, v) > 0 {
      assert items[v - 1] in r;
      var i :| 0 <= i < |r| && r[i] == items[v - 1];
      assert r[i].level == v;
    }
  }

  /** Counting per level partitions a list on the scale: the five counts add up to its length. */
  lemma {:induction false} CountsPartition(s: seq<MoodEntry>)
    requires AllValid(s)
    ensures CountMood(s, 1) + CountMood(s, 2) + CountMood(s, 3) + CountMood(s, 4) + CountMood(s, 5) == |s|
  {
    if s != [] {
      assert AllValid(s[1..]) by {
        forall i | 0 <= i < |s| - 1 ensures ValidMood(s[1..][i].mood) {
          assert s[1..][i] == s[i + 1];
        }
      }
      CountsPartition(s[1..]);
      assert ValidMood(s[0].mood);
    }
  }

  /** The retained counts of a list on the scale add up to its length. */
  lemma DistributionCountsSum(s: seq<MoodEntry>)
    requires AllValid(s)
    ensures SumCounts(MoodDistribution(s)) == |s|
  {
    var items := LevelItems(s);
    CountsPartition(s);
    assert items[4..][1..] == [];
    assert SumCounts(items[4..]) == CountMood(s, 5);
    assert items[3..][1..] == items[4..];
    assert SumCounts(items[3..]) == CountMood(s, 4) + CountMood(s, 5);
    assert items[2..][1..] == items[3..];
    assert SumCounts(items[2..]) == CountMood(s, 3) + CountMood(s, 4) + CountMood(s, 5);
    assert items[1..][1..] == items[2..];
    assert SumCounts(items[1..]) == CountMood(s, 2) + CountMood(s, 3) + CountMood(s, 4) + CountMood(s, 5);
    assert SumCounts(items) == CountMood(s, 1) + CountMood(s, 2) + CountMood(s, 3) + CountMood(s, 4) + CountMood(s, 5);
    KeepNonZeroSum(items);
  }

  function SumPercentNumerators(items: seq<DistributionItem>): int
  {
    if items == [] then 0 else items[0].percentage.num + SumPercentNumerators(items[1..])
  }

  lemma {:induction false} PercentNumeratorsAreScaledCounts(s: seq<MoodEntry>, items: seq<DistributionItem>)
    requires forall i :: 0 <= i < |items| ==> ValidMood(items[i].level) && items[i] == LevelItem(s, items[i].level)
    ensures SumPercentNumerators(items) == 100 * SumCounts(items)
  {
    if items != [] {
      PercentNumeratorsAreScaledCounts(s, items[1..]);
    }
  }

  /**
   * Every percentage is count/n*100 over the common denominator n and lies in (0, 100];
   * for a list on the scale the percentages add up to exactly 100.
   */
  lemma PercentagesInRange(s: seq<MoodEntry>)
    requires |s| > 0
    ensures forall i :: 0 <= i < |MoodDistribution(s)| ==>
              var p := MoodDistribution(s)[i].percentage;
              p.den == |s| && 0 < p.num <= 100 * p.den
    ensures AllValid(s) ==> SumPercentNumerators(MoodDistribution(s)) == 100 * |s|
  {
    var r := MoodDistribution(s);
    DistributionRecords(s);
    forall i | 0 <= i < |r| ensures r[i].percentage.den == |s| && 0 < r[i].percentage.num <= 100 * |s| {
      var c := CountMood(s, r[i].level);
      assert r[i].percentage == Ratio(c * 100, |s|);
    }
    PercentNumeratorsAreScaledCounts(s, r);
    if AllValid(s) {
      DistributionCountsSum(s);
    }
  }

  // ----- Weekly comparison -----

  datatype WeeklyPoint = WeeklyPoint(period: string, average: Ratio)

  /** `moodData.slice(-7)`. */
  function ThisWeek(s: seq<MoodEntry>): seq<MoodEntry>
  {
    SliceFrom(s, -7)
  }

  /** `moodData.slice(-14, -7)`. */
  function LastWeek(s: seq<MoodEntry>): seq<MoodEntry>
  {
    Slice(s, -14, -7)
  }

  /** With at least seven entries the earlier window holds min(7, n-7) entries, ending where this week starts. */
  lemma LastWeekWindow(s: seq<MoodEntry>)
    requires |s| >= 7
    ensures |LastWeek(s)| == Min(7, |s| - 7)
    ensures LastWeek(s) == s[|s| - 7 - Min(7, |s| - 7)..|s| - 7]
  {
    SliceBetweenFromEnd(s, 14, 7);
  }

  /**
   * The comparison: empty below seven entries, otherwise exactly [Last Week, This Week];
   * This Week is the mean of the last seven entries and Last Week the mean of the seven
   * before them (fewer if the list is shorter), or This Week's mean when there are none.
   */
  function WeeklyData(s: seq<MoodEntry>): (r: seq<WeeklyPoint>)
    ensures r == [] <==> |s| < 7
    ensures |s| >= 7 ==> |r| == 2 && r[0].period == "Last Week" && r[1].period == "This Week"
    ensures |s| >= 7 ==> r[1].average == Mean(s[|s| - 7..])
    ensures |s| >= 7 ==>
              r[0].average == if |s| > 7 then Mean(s[|s| - 7 - Min(7, |s| - 7)..|s| - 7]) else r[1].average
  {
    if |s| >= 7 then
      var thisWeek := ThisWeek(s);
      var lastWeek := LastWeek(s);
      SliceLast(s, 7);
      LastWeekWindow(s);
      var thisWeekAvg := Mean(thisWeek);
      var lastWeekAvg := if |lastWeek| > 0 then Mean(lastWeek) else thisWeekAvg;
      [WeeklyPoint("Last Week", lastWeekAvg), WeeklyPoint("This Week", thisWeekAvg)]
    else
      []
  }

  /** On the scale both weekly bars lie in [1, 5]. */
  lemma WeeklyAveragesInRange(s: seq<MoodEntry>)
    requires AllValid(s)
    ensures forall i :: 0 <= i < |WeeklyData(s)| ==> Within(WeeklyData(s)[i].average, 1, 5)
  {
    if |s| >= 7 {
      SubrangeValid(s, |s| - 7, |s|);
      SubrangeValid(s, |s| - 7 - Min(7, |s| - 7), |s| - 7);
      assert s[|s| - 7..|s|] == s[|s| - 7..];
    }
  }

  // ----- Snapshot -----

  datatype Snapshot = Snapshot(
    averageMood: Ratio,
    trendData: seq<TrendPoint>,
    moodDistribution: seq<DistributionItem>,
    weeklyData: seq<WeeklyPoint>,
    totalEntries: nat)

  /** The memoised analytics: no snapshot (null) for an empty list, so no division by zero. */
  function Analytics(s: seq<MoodEntry>): (r: Option<Snapshot>)
    ensures r == None <==> s == []
    ensures r.Some? ==>
              && r.value.totalEntries == |s|
              && r.value.averageMood == Mean(s)
              && r.value.trendData == TrendData(s)
              && r.value.moodDistribution == MoodDistribution(s)
              && r.value.weeklyData == WeeklyData(s)
  {
    if |s| == 0 then None
    else
      Some(Snapshot(
        averageMood := Mean(s),
        trendData := TrendData(s),
        moodDistribution := MoodDistribution(s),
        weeklyData := WeeklyData(s),
        totalEntries := |s|))
  }

  /** For a list on the scale, the snapshot's average lies in [1, 5]. */
  lemma AverageInRange(s: seq<MoodEntry>)
    requires s != [] && AllValid(s)
    ensures Within(Analytics(s).value.averageMood, 1, 5)
  {
  }

  // ----- Summary cards -----

  /** `Math.max(...moodData.map(d => d.mood))`, rendered only when there is a snapshot. */
  function BestMood(s: seq<MoodEntry>): (best: int)
    requires |s| > 0
    ensures forall i :: 0 <= i < |s| ==> s[i].mood <= best
    ensures exists i :: 0 <= i < |s| && s[i].mood == best
  {
    if |s| == 1 then s[0].mood
    else
      var b := BestMood(s[1..]);
      assert forall i :: 1 <= i < |s| ==> s[i] == s[1..][i - 1];
      if s[0].mood >= b then s[0].mood else b
  }

  /** The best mood of a list on the scale is on the scale. */
  lemma BestMoodOnScale(s: seq<MoodEntry>)
    requires |s| > 0 && AllValid(s)
    ensures ValidMood(BestMood(s))
  {
  }

  /** `Math.min(analytics.totalEntries, 7)`. */
  function Streak(snapshot: Snapshot): (days: int)
    ensures days <= 7 && days <= snapshot.totalEntries
  {
    Min(snapshot.totalEntries, 7)
  }

  /** The streak card shows as many days as the trend line has points. */
  lemma StreakIsTrendLength(s: seq<MoodEntry>)
    requires s != []
    ensures Streak(Analytics(s).value) == |Analytics(s).value.trendData|
  {
  }

  // ----- A worked example -----

  /** Seven check-ins with moods 3, 4, 5, 2, 3, 4, 5, oldest first. */
  function ExampleWeek(): seq<MoodEntry>
  {
    [MoodEntry(3, "", ""), MoodEntry(4, "", ""), MoodEntry(5, "", ""), MoodEntry(2, "", ""),
     MoodEntry(3, "", ""), MoodEntry(4, "", ""), MoodEntry(5, "", "")]
  }

  /** The example's moods add up to 26, so the mean is 26/7 (3.7 when displayed). */
  lemma ExampleMean()
    ensures Mean(ExampleWeek()) == Ratio(26, 7)
  {
    var s := ExampleWeek();
    assert SumMoods(s[..1]) == 3 by { assert s[..1][..0] == []; }
    assert SumMoods(s[..2]) == 7 by { assert s[..2][..1] == s[..1]; }
    assert SumMoods(s[..3]) == 12 by { assert s[..3][..2] == s[..2]; }
    assert SumMoods(s[..4]) == 14 by { assert s[..4][..3] == s[..3]; }
    assert SumMoods(s[..5]) == 17 by { assert s[..5][..4] == s[..4]; }
    assert SumMoods(s[..6]) == 21 by { assert s[..6][..5] == s[..5]; }
    assert s[..|s| - 1] == s[..6];
  }

  /** The example's distribution keeps four levels: Down once, Okay, Good and Great twice each. */
  lemma ExampleDistribution()
    ensures [CountMood(ExampleWeek(), 1), CountMood(ExampleWeek(), 2), CountMood(ExampleWeek(), 3),
             CountMood(ExampleWeek(), 4), CountMood(ExampleWeek(), 5)] == [0, 1, 2, 2, 2]
    ensures |MoodDistribution(ExampleWeek())| == 4
  {
    var s := ExampleWeek();
    var t := s[1..][1..][1..];
    assert t == [MoodEntry(2, "", ""), MoodEntry(3, "", ""), MoodEntry(4, "", ""), MoodEntry(5, "", "")];
    assert t[1..][1..][1..][1..] == [];
    var items := LevelItems(s);
    assert items[1..][1..][1..][1..][1..] == [];
  }

  /** With exactly seven entries there is no earlier week, so both bars show the same mean. */
  lemma ExampleWeekly()
    ensures WeeklyData(ExampleWeek()) == [WeeklyPoint("Last Week", Ratio(26, 7)), WeeklyPoint("This Week", Ratio(26, 7))]
  {
    ExampleMean();
    assert ExampleWeek()[7 - 7..] == ExampleWeek();
  }

  /** The example's best mood is 5. */
  lemma ExampleBestMood()
    ensures BestMood(ExampleWeek()) == 5
  {
    assert ExampleWeek()[2].mood == 5;
  }
}
