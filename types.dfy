/**
 * The records the dashboard keeps: priorities, habits, daily tasks and
 * smart insights, plus the weekly statistics aggregate computed from them.
 *
 * Timestamps are milliseconds since the epoch, as plain integers. A habit's
 * seven-day completion map is a sequence of exactly seven booleans, index 0
 * for monday through index 6 for sunday. Optional list fields of the records
 * (tags, chainedHabits, prerequisiteHabits, optimalTimes) are sequences whose
 * absence is the empty sequence.
 */
module Types {

  datatype Option<T> = None | Some(value: T)

  /** Seven completion flags, monday first. */
  type Week = s: seq<bool> | |s| == 7 witness [false, false, false, false, false, false, false]

  const Monday: nat := 0
  const Sunday: nat := 6

  /** The weekday keys of a completion map, in declaration order. */
  const DayNames: seq<string> :=
    ["monday", "tuesday", "wednesday", "thursday", "friday", "saturday", "sunday"]

  const EmptyWeek: Week := [false, false, false, false, false, false, false]

  /** The level a priority may carry; 'urgent' exists only for priorities. */
  datatype PriorityLevel = PLow | PMedium | PHigh | PUrgent

  /** The level a daily task may carry: low, medium or high, never urgent. */
  datatype TaskLevel = TLow | TMedium | THigh

  datatype Difficulty = Easy | Moderate | Hard

  datatype Priority = Priority(
    id: string,
    text: string,
    completed: bool,
    createdAt: int,
    dueDate: Option<int>,
    priority: Option<PriorityLevel>,
    estimatedTime: Option<int>,
    tags: seq<string>,
    category: Option<string>)

  datatype Habit = Habit(
    id: string,
    name: string,
    completedDays: Week,
    createdAt: int,
    category: Option<string>,
    difficulty: Option<Difficulty>,
    estimatedTime: Option<int>,
    streak: Option<int>,
    longestStreak: Option<int>,
    chainedHabits: seq<string>,
    prerequisiteHabits: seq<string>,
    optimalTimes: seq<string>)

  datatype DailyTask = DailyTask(
    id: string,
    text: string,
    day: string,
    completed: bool,
    createdAt: int,
    priority: Option<TaskLevel>,
    estimatedTime: Option<int>,
    category: Option<string>,
    aiGenerated: Option<bool>,
    suggestedTime: Option<string>)

  datatype InsightType = HabitInsight | PriorityInsight | TaskInsight | GoalInsight | GeneralInsight

  datatype InsightCategory = Performance | Timing | StreakCategory | Productivity | Warning

  /** A heuristic advisory note; confidence is a percentage in 0..100. */
  datatype SmartInsight = SmartInsight(
    id: string,
    kind: InsightType,
    title: string,
    actionable: bool,
    action: Option<string>,
    confidence: int,
    createdAt: int,
    dismissed: Option<bool>,
    category: InsightCategory)

  datatype Trend = Increasing | Decreasing | Stable

  /** The nine statistics the dashboard hook computes. */
  datatype WeeklyStats = WeeklyStats(
    totalPriorities: nat,
    prioritiesCompleted: nat,
    prioritiesCompletionRate: real,
    totalHabits: nat,
    habitConsistency: real,
    totalTasks: nat,
    tasksCompleted: nat,
    tasksCompletionRate: real,
    overallScore: real)

  /** A JavaScript number used with `||`: absent and 0 are both falsy. */
  predicate Truthy(n: Option<int>)
  {
    n.Some? && n.value != 0
  }

  /** `n || fallback` for an optional number. */
  function OrDefault(n: Option<int>, fallback: int): (r: int)
    ensures Truthy(n) ==> r == n.value
    ensures !Truthy(n) ==> r == fallback
  {
    if n.Some? && n.value != 0 then n.value else fallback
  }

  /** The number of true flags in a sequence of flags. */
  function CountTrue(s: seq<bool>): (n: nat)
    ensures n <= |s|
    ensures n == |s| <==> forall i :: 0 <= i < |s| ==> s[i]
    ensures n == 0 <==> forall i :: 0 <= i < |s| ==> !s[i]
  {
    if s == [] then 0 else (if s[0] then 1 else 0) + CountTrue(s[1..])
  }

  lemma {:induction false} CountTrueAppend(a: seq<bool>, b: seq<bool>)
    ensures CountTrue(a + b) == CountTrue(a) + CountTrue(b)
  {
    if a == [] {
      assert a + b == b;
    } else {
      assert (a + b)[1..] == a[1..] + b;
      CountTrueAppend(a[1..], b);
    }
  }

  /** A weekday map flipped at one day: only that day changes. */
  function FlipDay(w: Week, d: nat): (r: Week)
    requires d < 7
    ensures r[d] == !w[d]
    ensures forall i :: 0 <= i < 7 && i != d ==> r[i] == w[i]
  {
    w[d := !w[d]]
  }

  lemma FlipDayTwice(w: Week, d: nat)
    requires d < 7
    ensures FlipDay(FlipDay(w, d), d) == w
  {
    assert forall i :: 0 <= i < 7 ==> FlipDay(FlipDay(w, d), d)[i] == w[i];
  }

  /**
   * `whole > 0 ? (part / whole) * 100 : 0`, exactly (no floating point). Every
   * completion rate of the dashboard has this shape.
   */
  function Percent(part: nat, whole: nat): (r: real)
    requires part <= whole
    ensures 0.0 <= r <= 100.0
    ensures r == 0.0 <==> part == 0
    ensures r == 100.0 <==> whole > 0 && part == whole
  {
    if whole > 0 then part as real / whole as real * 100.0 else 0.0
  }

  /** A percentage threshold restated as a comparison of integers. */
  lemma PercentCompare(part: nat, whole: nat, t: real)
    requires part <= whole && whole > 0
    ensures Percent(part, whole) < t <==> (part * 100) as real < t * whole as real
    ensures Percent(part, whole) > t <==> (part * 100) as real > t * whole as real
  {
    var w := whole as real;
    assert Percent(part, whole) * w == (part * 100) as real;
  }
}
