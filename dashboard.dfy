/**
 * The dashboard's figures, all computed from the `tasks` and `goals` props: today's tasks and
 * how many of them are done, the active/completed goal split, the average goal progress, the
 * weekly completion rate, the tasks of this month and the three "Recent Goals". The clock- and
 * locale-dependent parts are parameters: `localeDay` is `new Date(d).toLocaleDateString()`,
 * `inWeek` the week-window test, `monthPrefix` the `YYYY-MM` of today.
 */
module Dashboard {
  import opened Wrappers
  import opened Types
  import JsArray

  /** `tasks.filter(task => new Date(task.date).toLocaleDateString() === today)`. */
  function TodayTasks(tasks: seq<Task>, localeDay: string -> string, today: string): (r: seq<Task>)
    ensures forall i :: 0 <= i < |r| ==> r[i] in tasks && localeDay(r[i].date) == today
    ensures forall i :: 0 <= i < |tasks| && localeDay(tasks[i].date) == today ==> tasks[i] in r
  {
    JsArray.Filter(tasks, (t: Task) => localeDay(t.date) == today)
  }

  /** `todayTasks.filter(task => task.completed)`. */
  function CompletedTasks(todayTasks: seq<Task>): (r: seq<Task>)
    ensures |r| <= |todayTasks|
    ensures forall i :: 0 <= i < |r| ==> r[i] in todayTasks && r[i].completed
    ensures forall i :: 0 <= i < |todayTasks| && todayTasks[i].completed ==> todayTasks[i] in r
  {
    JsArray.Filter(todayTasks, (t: Task) => t.completed)
  }

  /**
   * `list.length > 0 ? (list.filter(completed).length / list.length) * 100 : 0`: the completion
   * rate of today's tasks and, on the week's tasks, the weekly completion rate.
   */
  function CompletionRate(list: seq<Task>): (rate: real)
    ensures list == [] ==> rate == 0.0
    ensures 0.0 <= rate <= 100.0
  {
    if |list| > 0 then
      var done, total := |CompletedTasks(list)| as real, |list| as real;
      RatioWithinOne(done, total);
      (done / total) * 100.0
    else 0.0
  }

  /** A part of a positive whole, divided by the whole, lies in [0, 1]. */
  lemma RatioWithinOne(part: real, whole: real)
    requires 0.0 <= part <= whole && whole > 0.0
    ensures 0.0 <= part / whole <= 1.0
  {
    var q := part / whole;
    assert q * whole == part;
  }

  /** The rate is 100 exactly when the list is non-empty and every task in it is done. */
  lemma CompletionRateFull(list: seq<Task>)
    ensures CompletionRate(list) == 100.0 <==> list != [] && forall i :: 0 <= i < |list| ==> list[i].completed
  {
    if list != [] {
      var n, d := |CompletedTasks(list)| as real, |list| as real;
      assert CompletionRate(list) == (n / d) * 100.0;
      assert CompletionRate(list) == 100.0 <==> n == d;
      JsArray.FilterSplit(list, (t: Task) => t.completed, (t: Task) => !t.completed);
      JsArray.FilterEmpty(list, (t: Task) => !t.completed);
    }
  }

  /** The rate is 0 exactly when no task in the list is done. */
  lemma CompletionRateZero(list: seq<Task>)
    ensures CompletionRate(list) == 0.0 <==> forall i :: 0 <= i < |list| ==> !list[i].completed
  {
    if list != [] {
      var n, d := |CompletedTasks(list)| as real, |list| as real;
      assert CompletionRate(list) == (n / d) * 100.0;
      assert CompletionRate(list) == 0.0 <==> n == 0.0;
      JsArray.FilterEmpty(list, (t: Task) => t.completed);
    }
  }

  /** `thisWeekTasks`: the tasks whose date lies in the current week, `inWeek` being that test. */
  function WeekTasks(tasks: seq<Task>, inWeek: string -> bool): (r: seq<Task>)
    ensures forall i :: 0 <= i < |r| ==> r[i] in tasks && inWeek(r[i].date)
    ensures forall i :: 0 <= i < |tasks| && inWeek(tasks[i].date) ==> tasks[i] in r
  {
    JsArray.Filter(tasks, (t: Task) => inWeek(t.date))
  }

  /** `weeklyCompletionRate` is 0 when no task falls in the week, and lies in [0, 100]. */
  lemma WeeklyRateEmptyWeek(tasks: seq<Task>, inWeek: string -> bool)
    ensures (forall i :: 0 <= i < |tasks| ==> !inWeek(tasks[i].date)) ==> CompletionRate(WeekTasks(tasks, inWeek)) == 0.0
    ensures 0.0 <= CompletionRate(WeekTasks(tasks, inWeek)) <= 100.0
  {
    var w := WeekTasks(tasks, inWeek);
    if w != [] {
      assert w[0] in tasks;
    }
  }

  /** `goals.filter(goal => goal.currentValue < goal.targetValue)`. */
  function ActiveGoals(goals: seq<Goal>): (r: seq<Goal>)
    ensures forall i :: 0 <= i < |r| ==> r[i] in goals && r[i].currentValue < r[i].targetValue
  {
    JsArray.Filter(goals, (g: Goal) => g.currentValue < g.targetValue)
  }

  /** `goals.filter(goal => goal.currentValue >= goal.targetValue)`. */
  function CompletedGoals(goals: seq<Goal>): (r: seq<Goal>)
    ensures forall i :: 0 <= i < |r| ==> r[i] in goals && r[i].currentValue >= r[i].targetValue
  {
    JsArray.Filter(goals, (g: Goal) => g.currentValue >= g.targetValue)
  }

  /**
   * Active and completed goals partition the goals: each goal is in exactly one of the two lists,
   * with its multiplicity, and the two counts add up to the number of goals.
   */
  lemma GoalsPartition(goals: seq<Goal>)
    ensures multiset(ActiveGoals(goals)) + multiset(CompletedGoals(goals)) == multiset(goals)
    ensures |ActiveGoals(goals)| + |CompletedGoals(goals)| == |goals|
    ensures forall g :: g in goals ==> (g in ActiveGoals(goals) <==> g !in CompletedGoals(goals))
  {
    JsArray.FilterSplit(goals, (g: Goal) => g.currentValue < g.targetValue,
                        (g: Goal) => g.currentValue >= g.targetValue);
    forall g | g in goals
      ensures g in ActiveGoals(goals) <==> g !in CompletedGoals(goals)
    {
      var i :| 0 <= i < |goals| && goals[i] == g;
      if g.currentValue < g.targetValue {
        assert g in ActiveGoals(goals);
      } else {
        assert g in CompletedGoals(goals);
      }
    }
  }

  /** The sum `reduce` builds: `(currentValue / targetValue) * 100` per goal; `None` if a target is 0. */
  function ProgressSum(goals: seq<Goal>): (sum: Option<real>)
    ensures sum.None? <==> exists i :: 0 <= i < |goals| && goals[i].targetValue == 0.0
  {
    if goals == [] then Some(0.0)
    else
      var rest := ProgressSum(goals[1..]);
      assert forall i :: 1 <= i < |goals| ==> goals[i] == goals[1..][i - 1];
      if goals[0].targetValue == 0.0 || rest.None? then None
      else Some((goals[0].currentValue / goals[0].targetValue) * 100.0 + rest.value)
  }

  /** `averageGoalProgress`: 0 without goals, otherwise the mean progress; `None` if a target is 0. */
  function AverageGoalProgress(goals: seq<Goal>): (avg: Option<real>)
    ensures goals == [] ==> avg == Some(0.0)
    ensures avg.None? <==> exists i :: 0 <= i < |goals| && goals[i].targetValue == 0.0
  {
    if |goals| > 0 then
      var sum := ProgressSum(goals);
      if sum.None? then None else Some(sum.value / |goals| as real)
    else Some(0.0)
  }

  /** Goals with positive targets, none over target and none below zero. */
  predicate WithinTargets(goals: seq<Goal>) {
    forall i :: 0 <= i < |goals| ==> 0.0 <= goals[i].currentValue <= goals[i].targetValue && goals[i].targetValue > 0.0
  }

  /** When every goal is within its target, the progress sum lies between 0 and 100 per goal. */
  lemma {:induction false} ProgressSumBounds(goals: seq<Goal>)
    requires WithinTargets(goals)
    ensures ProgressSum(goals).Some?
    ensures 0.0 <= ProgressSum(goals).value <= 100.0 * |goals| as real
  {
    if goals != [] {
      ProgressSumBounds(goals[1..]);
      var g := goals[0];
      var p := (g.currentValue / g.targetValue) * 100.0;
      assert p * g.targetValue == g.currentValue * 100.0;
    }
  }

  /** So the average, shown by a progress bar, already lies in [0, 100]. */
  lemma AverageWithinRange(goals: seq<Goal>)
    requires WithinTargets(goals)
    ensures AverageGoalProgress(goals).Some?
    ensures 0.0 <= AverageGoalProgress(goals).value <= 100.0
  {
    ProgressSumBounds(goals);
    if goals != [] {
      var s, n := ProgressSum(goals).value, |goals| as real;
      var a := s / n;
      assert a * n == s;
    }
  }

  /** `tasks.filter(task => task.date.startsWith(monthPrefix)).length`: the "This Month" figure. */
  function MonthTaskCount(tasks: seq<Task>, monthPrefix: string): (n: nat)
    ensures n <= |tasks|
    ensures n == |JsArray.Filter(tasks, (t: Task) => monthPrefix <= t.date)|
  {
    JsArray.Count(tasks, (t: Task) => monthPrefix <= t.date)
  }

  /** `goals.slice(0, 3)`: the first three goals, in order. */
  function RecentGoals(goals: seq<Goal>): (r: seq<Goal>)
    ensures |r| == if |goals| < 3 then |goals| else 3
    ensures forall i :: 0 <= i < |r| ==> r[i] == goals[i]
  {
    if |goals| < 3 then goals else goals[..3]
  }

  /** The "No goals yet" hint appears exactly when the recent-goals list is empty. */
  lemma EmptyHintIffNoRecentGoals(goals: seq<Goal>)
    ensures |goals| == 0 <==> RecentGoals(goals) == []
  {
  }
}
