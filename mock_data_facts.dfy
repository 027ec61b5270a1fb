/** Facts about the constant data of app/frontend/data/dashboard-mock-data.ts and
    the figures the dashboard derives from it. */
module MockDataFacts {
  import opened MockData
  import opened Seqs
  import opened Text
  import Dashboard
  import Productivity

  function Indicator(p: Task -> bool, t: Task): nat {
    if p(t) then 1 else 0
  }

  /** How many of the first `k` elements of `s` satisfy `p`, added one element at a time. */
  function IndicatorSum(s: seq<Task>, p: Task -> bool, k: nat): nat
    requires k <= |s|
  {
    if k == 0 then 0 else IndicatorSum(s, p, k - 1) + Indicator(p, s[k - 1])
  }

  lemma {:induction false} CountIsIndicatorSum(s: seq<Task>, p: Task -> bool, k: nat)
    requires k <= |s|
    ensures Count(s[..k], p) == IndicatorSum(s, p, k)
  {
    if k > 0 {
      CountIsIndicatorSum(s, p, k - 1);
      assert s[..k] == s[..k - 1] + [s[k - 1]];
      CountSnoc(s[..k - 1], s[k - 1], p);
    }
  }

  /** Counting over the fixture task by task. */
  lemma CountTasks(p: Task -> bool)
    ensures Count(Tasks, p) ==
      Indicator(p, Task1) + Indicator(p, Task2) + Indicator(p, Task3) + Indicator(p, Task4)
      + Indicator(p, Task5) + Indicator(p, Task6) + Indicator(p, Task7) + Indicator(p, Task8)
      + Indicator(p, Task9) + Indicator(p, Task10)
  {
    CountIsIndicatorSum(Tasks, p, 10);
    assert Tasks[..10] == Tasks;
    assert IndicatorSum(Tasks, p, 1) == Indicator(p, Task1);
    assert IndicatorSum(Tasks, p, 2) == IndicatorSum(Tasks, p, 1) + Indicator(p, Task2);
    assert IndicatorSum(Tasks, p, 3) == IndicatorSum(Tasks, p, 2) + Indicator(p, Task3);
    assert IndicatorSum(Tasks, p, 4) == IndicatorSum(Tasks, p, 3) + Indicator(p, Task4);
    assert IndicatorSum(Tasks, p, 5) == IndicatorSum(Tasks, p, 4) + Indicator(p, Task5);
    assert IndicatorSum(Tasks, p, 6) == IndicatorSum(Tasks, p, 5) + Indicator(p, Task6);
    assert IndicatorSum(Tasks, p, 7) == IndicatorSum(Tasks, p, 6) + Indicator(p, Task7);
    assert IndicatorSum(Tasks, p, 8) == IndicatorSum(Tasks, p, 7) + Indicator(p, Task8);
    assert IndicatorSum(Tasks, p, 9) == IndicatorSum(Tasks, p, 8) + Indicator(p, Task9);
  }

  /** The fixture has 10 tasks: 2 done, 4 in progress, 4 to do, and 1 urgent. */
  lemma FixtureCounts()
    ensures Dashboard.Stats(Tasks) == Dashboard.TaskStats(10, 2, 1, 4, 4)
  {
    CountTasks(Dashboard.HasStatusNamed("done"));
    CountTasks(Dashboard.HasStatusNamed("in-progress"));
    CountTasks(Dashboard.HasStatusNamed("todo"));
    CountTasks(Dashboard.IsUrgent);
  }

  /** The task ids "1" to "10" are pairwise distinct. */
  lemma FixtureIdsDistinct()
    ensures forall i, j :: 0 <= i < j < |Tasks| ==> Tasks[i].id != Tasks[j].id
  {
  }

  /** Progress is a percentage; done tasks are at 100, and tasks still to do have
      no progress and no time spent. */
  lemma FixtureProgressConsistent()
    ensures forall k :: 0 <= k < |Tasks| ==> 0 <= Tasks[k].progress <= 100
    ensures forall k :: 0 <= k < |Tasks| && Tasks[k].status == Done ==> Tasks[k].progress == 100
    ensures forall k :: 0 <= k < |Tasks| && Tasks[k].status == Todo ==>
      Tasks[k].progress == 0 && Tasks[k].timeSpent == 0.0
  {
  }

  /** No two tasks are due on the same day, so every calendar bucket holds exactly
      one task and there are as many highlighted days as tasks. */
  lemma FixtureBucketsAreSingletons()
    ensures forall i, j :: 0 <= i < j < |Tasks| ==> Tasks[i].dueDate != Tasks[j].dueDate
    ensures forall d :: d in Productivity.Buckets(Tasks) ==> |Productivity.Buckets(Tasks)[d]| == 1
    ensures |Productivity.DueDays(Tasks)| == |Tasks|
  {
    Productivity.DistinctDueDatesSingletonBuckets(Tasks);
    Productivity.BucketSizesSum(Tasks);
    Productivity.DueDaysNoDuplicates(Tasks);
    Productivity.DueDaysAreKeys(Tasks);
    SumOfOnes(Productivity.DueDays(Tasks), Productivity.Buckets(Tasks));
  }

  lemma {:induction false} SumOfOnes(keys: seq<string>, m: map<string, seq<Task>>)
    requires forall k :: 0 <= k < |keys| ==> keys[k] in m && |m[keys[k]]| == 1
    ensures Productivity.SumSizes(keys, m) == |keys|
  {
    if keys != [] {
      SumOfOnes(keys[..|keys| - 1], m);
    }
  }

  /** The text of a day in 2025 with its month and day digits written out. */
  lemma FormatDayIn2025(k: Productivity.DayKey)
    requires k.year == 2025 && k.month < 100 && k.day < 100
    ensures Productivity.FormatDay(k) ==
      "2025-" + [DigitChar(k.month / 10), DigitChar(k.month % 10)]
        + "-" + [DigitChar(k.day / 10), DigitChar(k.day % 10)]
  {
    assert PadStart(NatToString(2025), 4, '0') == "2025";
    PadTwoDigits(k.month);
    PadTwoDigits(k.day);
  }

  /** A 2025 day text, written out digit by digit, formats and parses as that day. */
  lemma DayTextIn2025(s: string, month: nat, day: nat)
    requires month < 100 && day < 100
    requires s == "2025-" + [DigitChar(month / 10), DigitChar(month % 10)]
      + "-" + [DigitChar(day / 10), DigitChar(day % 10)]
    ensures s == Productivity.FormatDay(Productivity.DayKey(2025, month, day))
    ensures Productivity.ParseDay(s) == Some(Productivity.DayKey(2025, month, day))
  {
    FormatDayIn2025(Productivity.DayKey(2025, month, day));
    Productivity.FormatDayRoundTrip(Productivity.DayKey(2025, month, day));
  }

  /** The fixture's due days, task by task. */
  const DueDayKeys: seq<Productivity.DayKey> := [
    Productivity.DayKey(2025, 1, 15), Productivity.DayKey(2025, 1, 12),
    Productivity.DayKey(2025, 1, 20), Productivity.DayKey(2025, 1, 18),
    Productivity.DayKey(2025, 1, 10), Productivity.DayKey(2025, 1, 22),
    Productivity.DayKey(2025, 1, 8), Productivity.DayKey(2025, 1, 25),
    Productivity.DayKey(2025, 1, 17), Productivity.DayKey(2025, 2, 1)
  ]

  /** Every due date is the `yyyy-MM-dd` text of a day and reads back to that day,
      so reading it as a date and formatting it again leaves the key unchanged. */
  lemma FixtureDueDatesAreDayKeys()
    ensures |DueDayKeys| == |Tasks|
    ensures forall k :: 0 <= k < |Tasks| ==>
      Tasks[k].dueDate == Productivity.FormatDay(DueDayKeys[k])
      && Productivity.ParseDay(Tasks[k].dueDate) == Some(DueDayKeys[k])
  {
    forall k | 0 <= k < |Tasks|
      ensures Tasks[k].dueDate == Productivity.FormatDay(DueDayKeys[k])
      ensures Productivity.ParseDay(Tasks[k].dueDate) == Some(DueDayKeys[k])
    {
      DayTextIn2025(Tasks[k].dueDate, DueDayKeys[k].month, DueDayKeys[k].day);
    }
  }

  /** Every daily goal has a positive target and a current value between zero and
      the target, so the percentage `current / target * 100` is defined and at most 100. */
  lemma FixtureGoalsWellFormed()
    ensures forall k :: 0 <= k < |DailyGoals| ==>
      DailyGoals[k].target > 0.0 && 0.0 <= DailyGoals[k].current <= DailyGoals[k].target
  {
  }

  /** The metrics cover one day each, 2025-01-01 to 2025-01-10, in order. */
  lemma FixtureMetricsOnePerDay()
    ensures forall k :: 0 <= k < |ProductivityMetrics| ==>
      Productivity.ParseDay(ProductivityMetrics[k].date) == Some(Productivity.DayKey(2025, 1, k + 1))
  {
    var m := ProductivityMetrics;
    forall k | 0 <= k < |m|
      ensures Productivity.ParseDay(m[k].date) == Some(Productivity.DayKey(2025, 1, k + 1))
    {
      if k == 9 {
        DayTextIn2025(m[k].date, 1, 10);
      } else {
        DayTextIn2025(m[k].date, 1, k + 1);
      }
    }
  }
}
