/**
 * The dashboard data hook: it owns the three collections (priorities, habits
 * and daily tasks), replaces them through its add, toggle and delete
 * callbacks, and derives the weekly statistics from them.
 *
 * New records take their id from the current time (`Date.now().toString()`),
 * so the clock is a parameter `now` of every add operation.
 */
module DashboardData {
  import opened Types
  import opened Collections
  import Strings
  import opened HabitTracker

  // ---------------------------------------------------------------------------
  // Specification of the collection updates

  function NewPriority(text: string, now: nat): Priority
  {
    Priority(Strings.NatToString(now), text, false, now, None, None, None, [], None)
  }

  function NewHabit(name: string, now: nat): Habit
  {
    Habit(Strings.NatToString(now), name, EmptyWeek, now, None, None, None, None, None, [], [], [])
  }

  function NewDailyTask(day: string, text: string, now: nat): DailyTask
  {
    DailyTask(Strings.NatToString(now), text, day, false, now, None, None, None, None, None)
  }

  /** The priority list with `completed` flipped on every item carrying id. */
  function TogglePriorityIn(ps: seq<Priority>, id: string): (r: seq<Priority>)
    ensures |r| == |ps|
    ensures forall i :: 0 <= i < |ps| && ps[i].id == id ==>
              r[i] == ps[i].(completed := !ps[i].completed)
    ensures forall i :: 0 <= i < |ps| && ps[i].id != id ==> r[i] == ps[i]
  {
    if ps == [] then []
    else [if ps[0].id == id then ps[0].(completed := !ps[0].completed) else ps[0]]
         + TogglePriorityIn(ps[1..], id)
  }

  /** The task list with `completed` flipped on every item carrying id. */
  function ToggleTaskIn(ts: seq<DailyTask>, id: string): (r: seq<DailyTask>)
    ensures |r| == |ts|
    ensures forall i :: 0 <= i < |ts| && ts[i].id == id ==>
              r[i] == ts[i].(completed := !ts[i].completed)
    ensures forall i :: 0 <= i < |ts| && ts[i].id != id ==> r[i] == ts[i]
  {
    if ts == [] then []
    else [if ts[0].id == id then ts[0].(completed := !ts[0].completed) else ts[0]]
         + ToggleTaskIn(ts[1..], id)
  }

  /** The habit list with weekday d flipped on every habit carrying id. */
  function ToggleHabitDayIn(hs: seq<Habit>, id: string, d: nat): (r: seq<Habit>)
    requires d < 7
    ensures |r| == |hs|
    ensures forall i :: 0 <= i < |hs| && hs[i].id == id ==>
              r[i] == hs[i].(completedDays := FlipDay(hs[i].completedDays, d))
    ensures forall i :: 0 <= i < |hs| && hs[i].id != id ==> r[i] == hs[i]
  {
    if hs == [] then []
    else [if hs[0].id == id then hs[0].(completedDays := FlipDay(hs[0].completedDays, d)) else hs[0]]
         + ToggleHabitDayIn(hs[1..], id, d)
  }

  /** The position of a weekday key in the completion map. */
  function DayIndex(day: string): (d: nat)
    requires day in DayNames
    ensures d < 7 && DayNames[d] == day
  {
    if day == "monday" then 0
    else if day == "tuesday" then 1
    else if day == "wednesday" then 2
    else if day == "thursday" then 3
    else if day == "friday" then 4
    else if day == "saturday" then 5
    else 6
  }

  // ---------------------------------------------------------------------------
  // The hook's state and callbacks

  class DashboardStore {
    var priorities: seq<Priority>
    var habits: seq<Habit>
    var dailyTasks: seq<DailyTask>

    /** The hook starts from whatever local storage held (empty lists by default). */
    constructor (ps: seq<Priority>, hs: seq<Habit>, ts: seq<DailyTask>)
      ensures priorities == ps && habits == hs && dailyTasks == ts
    {
      priorities, habits, dailyTasks := ps, hs, ts;
    }

    method AddPriority(text: string, now: nat)
      modifies this
      ensures priorities == old(priorities) + [NewPriority(text, now)]
      ensures habits == old(habits) && dailyTasks == old(dailyTasks)
    {
      priorities := priorities + [NewPriority(text, now)];
    }

    method TogglePriority(id: string)
      modifies this
      ensures priorities == TogglePriorityIn(old(priorities), id)
      ensures habits == old(habits) && dailyTasks == old(dailyTasks)
    {
      priorities := TogglePriorityIn(priorities, id);
    }

    method DeletePriority(id: string)
      modifies this
      ensures priorities == Filter(old(priorities), (p: Priority) => p.id != id)
      ensures habits == old(habits) && dailyTasks == old(dailyTasks)
    {
      priorities := Filter(priorities, (p: Priority) => p.id != id);
    }

    method AddHabit(name: string, now: nat)
      modifies this
      ensures habits == old(habits) + [NewHabit(name, now)]
      ensures priorities == old(priorities) && dailyTasks == old(dailyTasks)
    {
      habits := habits + [NewHabit(name, now)];
    }

    /** `day` is one of the seven weekday keys, as every caller passes. */
    method ToggleHabitDay(id: string, day: string)
      requires day in DayNames
      modifies this
      ensures habits == ToggleHabitDayIn(old(habits), id, DayIndex(day))
      ensures priorities == old(priorities) && dailyTasks == old(dailyTasks)
    {
      habits := ToggleHabitDayIn(habits, id, DayIndex(day));
    }

    method DeleteHabit(id: string)
      modifies this
      ensures habits == Filter(old(habits), (h: Habit) => h.id != id)
      ensures priorities == old(priorities) && dailyTasks == old(dailyTasks)
    {
      habits := Filter(habits, (h: Habit) => h.id != id);
    }

    method AddDailyTask(day: string, text: string, now: nat)
      modifies this
      ensures dailyTasks == old(dailyTasks) + [NewDailyTask(day, text, now)]
      ensures priorities == old(priorities) && habits == old(habits)
    {
      dailyTasks := dailyTasks + [NewDailyTask(day, text, now)];
    }

    method ToggleDailyTask(id: string)
      modifies this
      ensures dailyTasks == ToggleTaskIn(old(dailyTasks), id)
      ensures priorities == old(priorities) && habits == old(habits)
    {
      dailyTasks := ToggleTaskIn(dailyTasks, id);
    }

    method DeleteDailyTask(id: string)
      modifies this
      ensures dailyTasks == Filter(old(dailyTasks), (t: DailyTask) => t.id != id)
      ensures priorities == old(priorities) && habits == old(habits)
    {
      dailyTasks := Filter(dailyTasks, (t: DailyTask) => t.id != id);
    }

    function GetWeeklyStats(): (s: WeeklyStats)
      reads this
      ensures s.totalPriorities == |priorities| && s.totalHabits == |habits|
      ensures s.totalTasks == |dailyTasks|
      ensures 0.0 <= s.overallScore <= 100.0
      ensures s.overallScore
              == (s.prioritiesCompletionRate + s.habitConsistency + s.tasksCompletionRate) / 3.0
      ensures s.habitConsistency == HabitConsistency(habits)
      ensures s.habitConsistency == Percent(TotalCheckedDays(habits), 7 * |habits|)
    {
      WeeklyStatsOf(priorities, habits, dailyTasks)
    }
  }

  // ---------------------------------------------------------------------------
  // Properties of the collection updates

  /** Toggling the same priority id twice restores the list. */
  lemma {:induction false} TogglePriorityTwice(ps: seq<Priority>, id: string)
    ensures TogglePriorityIn(TogglePriorityIn(ps, id), id) == ps
  {
    if ps != [] {
      TogglePriorityTwice(ps[1..], id);
    }
  }

  /** Toggling the same task id twice restores the list. */
  lemma {:induction false} ToggleTaskTwice(ts: seq<DailyTask>, id: string)
    ensures ToggleTaskIn(ToggleTaskIn(ts, id), id) == ts
  {
    if ts != [] {
      ToggleTaskTwice(ts[1..], id);
    }
  }

  /** Toggling the same habit day twice restores the list. */
  lemma {:induction false} ToggleHabitDayTwice(hs: seq<Habit>, id: string, d: nat)
    requires d < 7
    ensures ToggleHabitDayIn(ToggleHabitDayIn(hs, id, d), id, d) == hs
  {
    if hs != [] {
      FlipDayTwice(hs[0].completedDays, d);
      ToggleHabitDayTwice(hs[1..], id, d);
    }
  }

  /** An unknown id leaves the priority list as it was. */
  lemma UnknownPriorityId(ps: seq<Priority>, id: string)
    requires forall i :: 0 <= i < |ps| ==> ps[i].id != id
    ensures TogglePriorityIn(ps, id) == ps
    ensures Filter(ps, (p: Priority) => p.id != id) == ps
  {
    FilterExtremes(ps, (p: Priority) => p.id != id);
  }

  /** After a delete no item carries the id, and every other item is still there. */
  lemma DeletePriorityEffect(ps: seq<Priority>, id: string)
    ensures forall p :: p in Filter(ps, (p: Priority) => p.id != id) ==> p.id != id
    ensures forall i :: 0 <= i < |ps| && ps[i].id != id ==>
              ps[i] in Filter(ps, (p: Priority) => p.id != id)
    ensures |Filter(ps, (p: Priority) => p.id != id)| == |ps| - Count(ps, (p: Priority) => p.id == id)
  {
    DeleteCount(ps, id);
  }

  lemma {:induction false} DeleteCount(ps: seq<Priority>, id: string)
    ensures |Filter(ps, (p: Priority) => p.id != id)| == |ps| - Count(ps, (p: Priority) => p.id == id)
  {
    if ps != [] {
      DeleteCount(ps[1..], id);
    }
  }

  /** A new habit starts with all seven days unchecked and a new priority or task uncompleted. */
  lemma NewRecordsStartEmpty(text: string, day: string, now: nat)
    ensures CountTrue(NewHabit(text, now).completedDays) == 0
    ensures !NewPriority(text, now).completed && !NewDailyTask(day, text, now).completed
    ensures NewDailyTask(day, text, now).day == day
  {
  }

  // ---------------------------------------------------------------------------
  // Weekly statistics

  /** The number of completed priorities. */
  function PrioritiesCompleted(ps: seq<Priority>): nat
  {
    Count(ps, (p: Priority) => p.completed)
  }

  /** The number of completed tasks. */
  function TasksCompleted(ts: seq<DailyTask>): nat
  {
    Count(ts, (t: DailyTask) => t.completed)
  }

  /** The running sum the hook's reduce computes: the habits' progress percentages added up. */
  function ProgressSum(hs: seq<Habit>): real
  {
    if hs == [] then 0.0 else HabitProgress(hs[0]) + ProgressSum(hs[1..])
  }

  /** The checked days of all habits together. */
  function TotalCheckedDays(hs: seq<Habit>): (n: nat)
    ensures n <= 7 * |hs|
  {
    if hs == [] then 0 else CountTrue(hs[0].completedDays) + TotalCheckedDays(hs[1..])
  }

  /** habitConsistency: the mean of the habits' progress percentages, 0 without habits. */
  function HabitConsistency(hs: seq<Habit>): real
  {
    if |hs| > 0 then ProgressSum(hs) / |hs| as real else 0.0
  }

  lemma {:induction false} ProgressSumIsPooled(hs: seq<Habit>)
    ensures ProgressSum(hs) == TotalCheckedDays(hs) as real * 100.0 / 7.0
  {
    if hs != [] {
      ProgressSumIsPooled(hs[1..]);
    }
  }

  /**
   * Because every habit has the same seven days, the mean of the habits'
   * percentages equals the pooled percentage of all checked days.
   */
  lemma HabitConsistencyIsPooled(hs: seq<Habit>)
    ensures HabitConsistency(hs) == Percent(TotalCheckedDays(hs), 7 * |hs|)
  {
    if hs != [] {
      ProgressSumIsPooled(hs);
      MeanPooled(ProgressSum(hs), TotalCheckedDays(hs), |hs|);
      PercentUnfold(TotalCheckedDays(hs), 7 * |hs|);
    }
  }

  lemma MeanPooled(sum: real, t: nat, n: nat)
    requires n > 0 && sum == t as real * 100.0 / 7.0
    ensures sum / n as real == t as real / (7 * n) as real * 100.0
  {
    MeanOfSevenths(t as real, n);
  }

  lemma PercentUnfold(part: nat, whole: nat)
    requires part <= whole && whole > 0
    ensures Percent(part, whole) == part as real / whole as real * 100.0
  {
  }

  lemma MeanOfSevenths(t: real, n: nat)
    requires n > 0
    ensures (t * 100.0 / 7.0) / n as real == t / (7 * n) as real * 100.0
  {
    var m := n as real;
    var w := (7 * n) as real;
    assert w == 7.0 * m;
    var lhs := (t * 100.0 / 7.0) / m;
    var rhs := t / w * 100.0;
    assert lhs * m == t * 100.0 / 7.0;
    assert lhs * w == t * 100.0;
    assert rhs * w == t * 100.0;
  }

  /** The statistics getWeeklyStats returns for the three collections. */
  function WeeklyStatsOf(ps: seq<Priority>, hs: seq<Habit>, ts: seq<DailyTask>): (s: WeeklyStats)
    ensures s.totalPriorities == |ps| && s.totalHabits == |hs| && s.totalTasks == |ts|
    ensures s.prioritiesCompleted <= s.totalPriorities && s.tasksCompleted <= s.totalTasks
    ensures 0.0 <= s.prioritiesCompletionRate <= 100.0
    ensures 0.0 <= s.habitConsistency <= 100.0
    ensures 0.0 <= s.tasksCompletionRate <= 100.0
    ensures 0.0 <= s.overallScore <= 100.0
    ensures ps == [] ==> s.prioritiesCompletionRate == 0.0
    ensures hs == [] ==> s.habitConsistency == 0.0
    ensures ts == [] ==> s.tasksCompletionRate == 0.0
    ensures s.overallScore
            == (s.prioritiesCompletionRate + s.habitConsistency + s.tasksCompletionRate) / 3.0
    ensures s.habitConsistency == HabitConsistency(hs)
    ensures s.habitConsistency == Percent(TotalCheckedDays(hs), 7 * |hs|)
  {
    var pc := PrioritiesCompleted(ps);
    var tc := TasksCompleted(ts);
    var pr := Percent(pc, |ps|);
    HabitConsistencyIsPooled(hs);
    var hc := HabitConsistency(hs);
    var tr := Percent(tc, |ts|);
    WeeklyStats(|ps|, pc, pr, |hs|, hc, |ts|, tc, tr, (pr + hc + tr) / 3.0)
  }

  /** The completion rates are completed / total * 100 whenever the collection is non-empty. */
  lemma RatesAreRatios(ps: seq<Priority>, hs: seq<Habit>, ts: seq<DailyTask>)
    ensures var s := WeeklyStatsOf(ps, hs, ts);
            && (ps != [] ==> s.prioritiesCompletionRate
                             == s.prioritiesCompleted as real / |ps| as real * 100.0)
            && (ts != [] ==> s.tasksCompletionRate == s.tasksCompleted as real / |ts| as real * 100.0)
            && s.prioritiesCompleted == |Filter(ps, (p: Priority) => p.completed)|
            && s.tasksCompleted == |Filter(ts, (t: DailyTask) => t.completed)|
  {
    CountIsFilterLength(ps, (p: Priority) => p.completed);
    CountIsFilterLength(ts, (t: DailyTask) => t.completed);
  }

  /** The overall score is 100 exactly when all three rates are 100, and 0 exactly when all are 0. */
  lemma OverallScoreExtremes(ps: seq<Priority>, hs: seq<Habit>, ts: seq<DailyTask>)
    ensures var s := WeeklyStatsOf(ps, hs, ts);
            && (s.overallScore == 100.0 <==>
                 s.prioritiesCompletionRate == 100.0 && s.habitConsistency == 100.0
                 && s.tasksCompletionRate == 100.0)
            && (s.overallScore == 0.0 <==>
                 s.prioritiesCompletionRate == 0.0 && s.habitConsistency == 0.0
                 && s.tasksCompletionRate == 0.0)
  {
  }

  /** With nothing tracked every rate and the score are 0. */
  lemma EmptyStats()
    ensures WeeklyStatsOf([], [], []) == WeeklyStats(0, 0, 0.0, 0, 0.0, 0, 0, 0.0, 0.0)
  {
  }

  /** Adding an uncompleted priority keeps the completed count and lengthens the list by one. */
  lemma AddPriorityStats(ps: seq<Priority>, hs: seq<Habit>, ts: seq<DailyTask>, text: string, now: nat)
    ensures var s := WeeklyStatsOf(ps, hs, ts);
            var s' := WeeklyStatsOf(ps + [NewPriority(text, now)], hs, ts);
            && s'.totalPriorities == s.totalPriorities + 1
            && s'.prioritiesCompleted == s.prioritiesCompleted
  {
    var keep := (p: Priority) => p.completed;
    CountIsFilterLength(ps, keep);
    CountIsFilterLength(ps + [NewPriority(text, now)], keep);
    FilterAppend(ps, [NewPriority(text, now)], keep);
  }

  lemma CompletedCons(ps: seq<Priority>)
    requires ps != []
    ensures PrioritiesCompleted(ps) == (if ps[0].completed then 1 else 0) + PrioritiesCompleted(ps[1..])
  {
  }

  /** Toggling one priority changes the completed count by exactly one when its id is unique. */
  lemma {:induction false} ToggleUniquePriorityCount(ps: seq<Priority>, k: nat)
    requires k < |ps|
    requires forall i :: 0 <= i < |ps| && i != k ==> ps[i].id != ps[k].id
    ensures PrioritiesCompleted(TogglePriorityIn(ps, ps[k].id))
            == if ps[k].completed then PrioritiesCompleted(ps) - 1 else PrioritiesCompleted(ps) + 1
  {
    var id := ps[k].id;
    var r := TogglePriorityIn(ps, id);
    assert r[1..] == TogglePriorityIn(ps[1..], id);
    CompletedCons(r);
    CompletedCons(ps);
    if k == 0 {
      assert forall i :: 0 <= i < |ps[1..]| ==> ps[1..][i].id != id;
      UnknownPriorityId(ps[1..], id);
    } else {
      ToggleUniquePriorityCount(ps[1..], k - 1);
    }
  }
}
