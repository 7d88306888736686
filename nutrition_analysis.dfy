/**
 * The weekly nutrition analysis: the entries of the trailing seven days, their
 * per-macro daily averages, and how each average compares with a fixed table
 * of recommended daily intakes.
 */
module NutritionAnalysis {
  import opened Seqs
  import opened FoodLog

  const MsPerDay: int := 24 * 60 * 60 * 1000
  const WeekMs: int := 7 * MsPerDay

  /** The instant an entry's "YYYY-MM-DD" date parses to: midnight UTC, in ms since the epoch. */
  function EntryTime(e: FoodEntry): int
  {
    e.date * MsPerDay
  }

  /** The UTC calendar day containing the instant `now` (ms since the epoch). */
  function DayOf(now: int): Day
  {
    now / MsPerDay
  }

  function InWeek(now: int): FoodEntry -> bool
  {
    (e: FoodEntry) => now - WeekMs <= EntryTime(e) <= now
  }

  /** `getWeeklyData`: the entries whose date lies in [now - 7 days, now]. */
  function WeeklyEntries(entries: seq<FoodEntry>, now: int): (r: seq<FoodEntry>)
    ensures forall i :: 0 <= i < |r| ==> now - WeekMs <= EntryTime(r[i]) <= now && r[i] in entries
  {
    Filter(entries, InWeek(now))
  }

  /** The weekly filter keeps, in order, exactly the entries inside the window. */
  lemma WeeklyEntriesExact(entries: seq<FoodEntry>, now: int, x: FoodEntry)
    ensures SubsequenceOf(WeeklyEntries(entries, now), entries)
    ensures multiset(WeeklyEntries(entries, now))[x] ==
            if now - WeekMs <= EntryTime(x) <= now then multiset(entries)[x] else 0
  {
    FilterIsSubsequence(entries, InWeek(now));
    FilterCount(entries, InWeek(now), x);
  }

  /**
   * In calendar days: the window holds the current day and the six before it,
   * and also the seventh day back only when `now` is exactly midnight.
   */
  lemma WindowDays(d: Day, now: int)
    ensures (now - WeekMs <= d * MsPerDay <= now) <==>
            (DayOf(now) - 6 <= d <= DayOf(now) || (d == DayOf(now) - 7 && now % MsPerDay == 0))
  {
    var q, r := now / MsPerDay, now % MsPerDay;
    assert now == q * MsPerDay + r && 0 <= r < MsPerDay;
    if d <= q {
      assert d * MsPerDay <= q * MsPerDay;
    } else {
      assert d * MsPerDay >= (q + 1) * MsPerDay;
    }
    if d >= q - 6 {
      assert d * MsPerDay >= (q - 6) * MsPerDay;
    } else if d == q - 7 {
      assert d * MsPerDay == q * MsPerDay - WeekMs;
    } else {
      assert d * MsPerDay <= (q - 8) * MsPerDay;
    }
  }

  /** An entry logged on the current day is always inside the weekly window. */
  lemma TodayInWindow(e: FoodEntry, entries: seq<FoodEntry>, now: int)
    requires e.date == DayOf(now)
    ensures WeeklyEntries([e] + entries, now) == [e] + WeeklyEntries(entries, now)
    ensures WeeklyTotal([e] + entries, now) == Plus(MacrosOf(e), WeeklyTotal(entries, now))
  {
    WindowDays(e.date, now);
    FilterPrepend(e, entries, InWeek(now));
    SumPrepend(e, WeeklyEntries(entries, now));
  }

  /** `weeklyTotal`: the per-macro totals over the window. */
  function WeeklyTotal(entries: seq<FoodEntry>, now: int): (r: Macros)
    ensures r == SumWhere(entries, InWeek(now))
  {
    FilterSum(entries, InWeek(now));
    Sum(WeeklyEntries(entries, now))
  }

  /** `dailyAverage`: the weekly totals divided by 7, however many days have entries. */
  function DailyAverage(entries: seq<FoodEntry>, now: int): (r: Macros)
    ensures var t := WeeklyTotal(entries, now);
            && 7.0 * r.calories == t.calories && 7.0 * r.protein == t.protein
            && 7.0 * r.carbs == t.carbs && 7.0 * r.fat == t.fat
  {
    var t := WeeklyTotal(entries, now);
    Macros(t.calories / 7.0, t.protein / 7.0, t.carbs / 7.0, t.fat / 7.0)
  }

  /** A single 700 kcal entry in the window averages to 100 kcal a day. */
  lemma SingleEntryAverage(e: FoodEntry, now: int)
    requires e.calories == 700.0 && e.date == DayOf(now)
    ensures DailyAverage([e], now).calories == 100.0
  {
    TodayInWindow(e, [], now);
    assert WeeklyTotal([], now) == Zero;
  }

  /** With no entry in the window every average is zero. */
  lemma EmptyWindowAverage(entries: seq<FoodEntry>, now: int)
    requires forall i :: 0 <= i < |entries| ==> !(now - WeekMs <= EntryTime(entries[i]) <= now)
    ensures DailyAverage(entries, now) == Zero
  {
    FilterDropsAll(entries, InWeek(now));
  }

  // ---------------------------------------------------------------------------
  // Comparison with the recommended intake

  /** `recommended`: the fixed daily targets. */
  const Recommended := Macros(2000.0, 60.0, 275.0, 60.0)

  /** `getPercentage`: progress towards the target, capped at 100. */
  function Percentage(value: real, target: real): (r: real)
    requires target > 0.0
    ensures r <= 100.0
    ensures value <= target ==> r * target == value * 100.0
    ensures value >= target ==> r == 100.0
  {
    var p := value / target * 100.0;
    if p < 100.0 then p else 100.0
  }

  datatype Trend = High | Low | Normal

  /** `getTrend`: above 110% of the target is high, below 90% is low, anything else normal. */
  function GetTrend(value: real, target: real): (t: Trend)
    requires target > 0.0
    ensures t == High <==> 10.0 * value > 11.0 * target
    ensures t == Low <==> 10.0 * value < 9.0 * target
    ensures t == Normal <==> 9.0 * target <= 10.0 * value <= 11.0 * target
  {
    var percentage := value / target * 100.0;
    if percentage > 110.0 then High
    else if percentage < 90.0 then Low
    else Normal
  }

  /** Both boundaries belong to "normal": exactly 90% and exactly 110% of the target. */
  lemma {:induction false} TrendBoundaries(target: real)
    requires target > 0.0
    ensures GetTrend(target * 0.9, target) == Normal
    ensures GetTrend(target * 1.1, target) == Normal
    ensures forall v :: v < target * 0.9 ==> GetTrend(v, target) == Low
    ensures forall v :: v > target * 1.1 ==> GetTrend(v, target) == High
  {
  }

  function Abs(x: real): real
  {
    if x < 0.0 then -x else x
  }

  datatype Advice = CalorieLow | ProteinLow | CarbsHigh | Balanced

  /** The position of an advisory on the page. */
  function AdviceRank(a: Advice): nat
  {
    match a
    case CalorieLow => 0
    case ProteinLow => 1
    case CarbsHigh => 2
    case Balanced => 3
  }

  /**
   * The advisory messages shown for the daily averages, in display order; each
   * condition is checked on its own, so several may appear together.
   */
  function Advisories(avg: Macros): (r: seq<Advice>)
    ensures CalorieLow in r <==> avg.calories < 1800.0
    ensures ProteinLow in r <==> avg.protein < 54.0
    ensures CarbsHigh in r <==> avg.carbs > 302.5
    ensures Balanced in r <==> 1800.0 < avg.calories < 2200.0 && 54.0 < avg.protein < 66.0
    ensures forall i, j :: 0 <= i < j < |r| ==> AdviceRank(r[i]) < AdviceRank(r[j])
    ensures |r| <= 4
  {
    (if avg.calories < Recommended.calories * 0.9 then [CalorieLow] else [])
    + (if avg.protein < Recommended.protein * 0.9 then [ProteinLow] else [])
    + (if avg.carbs > Recommended.carbs * 1.1 then [CarbsHigh] else [])
    + (if Abs(avg.calories - Recommended.calories) < Recommended.calories * 0.1
          && Abs(avg.protein - Recommended.protein) < Recommended.protein * 0.1
       then [Balanced] else [])
  }

  /** The "balanced" message never appears beside either low-intake advice. */
  lemma BalancedExcludesLow(avg: Macros)
    ensures Balanced in Advisories(avg) ==> CalorieLow !in Advisories(avg) && ProteinLow !in Advisories(avg)
  {
  }

  /** The conditions are independent: high carbs and "balanced" can appear together. */
  lemma BalancedWithHighCarbs()
    ensures Advisories(Macros(2000.0, 60.0, 400.0, 60.0)) == [CarbsHigh, Balanced]
  {
  }

  /** What the analysis page shows: averages, a trend and a progress value per macro, and the advice. */
  datatype Analysis = Analysis(average: Macros, trends: seq<Trend>, progress: seq<real>, advice: seq<Advice>)

  /** The page for given daily averages, macros in display order: calories, protein, carbs, fat. */
  function Assess(avg: Macros): (r: Analysis)
    ensures r.average == avg
    ensures |r.trends| == 4 && |r.progress| == 4
    ensures forall i :: 0 <= i < 4 ==> r.progress[i] <= 100.0
    ensures r.trends[0] == High <==> avg.calories > 2200.0
    ensures r.trends[0] == Low <==> avg.calories < 1800.0
    ensures r.trends[1] == High <==> avg.protein > 66.0
    ensures r.trends[1] == Low <==> avg.protein < 54.0
    ensures r.trends[2] == High <==> avg.carbs > 302.5
    ensures r.trends[2] == Low <==> avg.carbs < 247.5
    ensures r.trends[3] == High <==> avg.fat > 66.0
    ensures r.trends[3] == Low <==> avg.fat < 54.0
    ensures avg.calories <= 2000.0 ==> r.progress[0] * 2000.0 == avg.calories * 100.0
    ensures avg.calories >= 2000.0 ==> r.progress[0] == 100.0
    ensures avg.protein <= 60.0 ==> r.progress[1] * 60.0 == avg.protein * 100.0
    ensures avg.protein >= 60.0 ==> r.progress[1] == 100.0
    ensures avg.carbs <= 275.0 ==> r.progress[2] * 275.0 == avg.carbs * 100.0
    ensures avg.carbs >= 275.0 ==> r.progress[2] == 100.0
    ensures avg.fat <= 60.0 ==> r.progress[3] * 60.0 == avg.fat * 100.0
    ensures avg.fat >= 60.0 ==> r.progress[3] == 100.0
    ensures r.advice == Advisories(avg)
  {
    Analysis(
      avg,
      [GetTrend(avg.calories, Recommended.calories), GetTrend(avg.protein, Recommended.protein),
       GetTrend(avg.carbs, Recommended.carbs), GetTrend(avg.fat, Recommended.fat)],
      [Percentage(avg.calories, Recommended.calories), Percentage(avg.protein, Recommended.protein),
       Percentage(avg.carbs, Recommended.carbs), Percentage(avg.fat, Recommended.fat)],
      Advisories(avg))
  }

  /** The whole analysis page for the log at instant `now`. */
  function Analyze(entries: seq<FoodEntry>, now: int): (r: Analysis)
    ensures r.average == DailyAverage(entries, now)
    ensures r.advice == Advisories(DailyAverage(entries, now))
    ensures 7.0 * r.average.calories == SumWhere(entries, InWeek(now)).calories
    ensures r == Assess(r.average)
  {
    Assess(DailyAverage(entries, now))
  }

  /**
   * With no entry in the window, every average is zero, all four macros are
   * "low", progress is zero and exactly the two low-intake advisories appear.
   */
  lemma EmptyWindowAnalysis(entries: seq<FoodEntry>, now: int)
    requires forall i :: 0 <= i < |entries| ==> !(now - WeekMs <= EntryTime(entries[i]) <= now)
    ensures Analyze(entries, now) == Analysis(Zero, [Low, Low, Low, Low], [0.0, 0.0, 0.0, 0.0], [CalorieLow, ProteinLow])
  {
    EmptyWindowAverage(entries, now);
    assert Analyze(entries, now) == Assess(Zero);
    assert Assess(Zero).trends == [Low, Low, Low, Low];
    assert Assess(Zero).progress == [0.0, 0.0, 0.0, 0.0];
  }
}
