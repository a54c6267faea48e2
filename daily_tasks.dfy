/**
 * The daily tasks card: tasks grouped into the seven weekday columns, the
 * card-wide and per-day completion figures, and the guard on the "add task"
 * form.
 */
module DailyTasks {
  import opened Types
  import opened Collections
  import Strings

  /** getTasksByDay: the tasks whose day is exactly the given key, in list order. */
  function GetTasksByDay(ts: seq<DailyTask>, day: string): (r: seq<DailyTask>)
    ensures forall i :: 0 <= i < |r| ==> r[i] in ts && r[i].day == day
    ensures forall i :: 0 <= i < |ts| && ts[i].day == day ==> ts[i] in r
  {
    Filter(ts, (t: DailyTask) => t.day == day)
  }

  datatype TotalStats = TotalStats(total: nat, completed: nat, percentage: real)

  /** getTotalStats: all tasks, the completed ones, and the completion percentage. */
  function GetTotalStats(ts: seq<DailyTask>): (s: TotalStats)
    ensures s.total == |ts| && s.completed <= s.total
    ensures s.completed == |Filter(ts, (t: DailyTask) => t.completed)|
    ensures 0.0 <= s.percentage <= 100.0
    ensures s.total == 0 ==> s.percentage == 0.0
    ensures s.total > 0 ==> s.percentage == s.completed as real / s.total as real * 100.0
  {
    CountIsFilterLength(ts, (t: DailyTask) => t.completed);
    var c := Count(ts, (t: DailyTask) => t.completed);
    TotalStats(|ts|, c, Percent(c, |ts|))
  }

  /** The completion rate shown on one weekday column: 0 for an empty column. */
  function DayCompletionRate(ts: seq<DailyTask>, day: string): (r: real)
    ensures 0.0 <= r <= 100.0
    ensures GetTasksByDay(ts, day) == [] ==> r == 0.0
    ensures r == 100.0 <==> GetTasksByDay(ts, day) != []
                            && forall t :: t in GetTasksByDay(ts, day) ==> t.completed
  {
    var dayTasks := GetTasksByDay(ts, day);
    Percent(Count(dayTasks, (t: DailyTask) => t.completed), |dayTasks|)
  }

  /** The number of tasks in the columns keyed by days. */
  function ColumnTotal(ts: seq<DailyTask>, days: seq<string>): nat
  {
    if days == [] then 0 else |GetTasksByDay(ts, days[0])| + ColumnTotal(ts, days[1..])
  }

  /** The number of tasks whose day is none of the keys in days. */
  function Unfiled(ts: seq<DailyTask>, days: seq<string>): nat
  {
    if ts == [] then 0 else (if ts[0].day in days then 0 else 1) + Unfiled(ts[1..], days)
  }

  /**
   * Every task is in exactly one column or in none: the seven weekday columns
   * together with the tasks whose day is not a weekday key make up the whole
   * list that the total stats count.
   */
  lemma ColumnsPartitionTasks(ts: seq<DailyTask>)
    ensures ColumnTotal(ts, DayNames) + Unfiled(ts, DayNames) == GetTotalStats(ts).total
  {
    ColumnsPartition(ts, DayNames);
  }

  lemma {:induction false} ColumnsPartition(ts: seq<DailyTask>, days: seq<string>)
    requires forall i, j :: 0 <= i < j < |days| ==> days[i] != days[j]
    ensures ColumnTotal(ts, days) + Unfiled(ts, days) == |ts|
  {
    if ts != [] {
      ColumnsPartition(ts[1..], days);
      ColumnTotalStep(ts, days);
    } else {
      ColumnTotalEmpty(days);
    }
  }

  lemma {:induction false} ColumnTotalEmpty(days: seq<string>)
    ensures ColumnTotal([], days) == 0
  {
    if days != [] {
      ColumnTotalEmpty(days[1..]);
    }
  }

  /** Peeling the first task off the list takes it out of exactly the columns whose key is its day. */
  lemma {:induction false} ColumnTotalStep(ts: seq<DailyTask>, days: seq<string>)
    requires ts != []
    requires forall i, j :: 0 <= i < j < |days| ==> days[i] != days[j]
    ensures ColumnTotal(ts, days) == ColumnTotal(ts[1..], days) + (if ts[0].day in days then 1 else 0)
  {
    if days != [] {
      ColumnTotalStep(ts, days[1..]);
      assert ts == [ts[0]] + ts[1..];
      FilterAppend([ts[0]], ts[1..], (t: DailyTask) => t.day == days[0]);
      assert [ts[0]][1..] == [];
    }
  }

  /** A task filed under a day that is not one of the seven keys shows in no column. */
  lemma OffKeyTaskHidden(ts: seq<DailyTask>, t: DailyTask)
    requires t.day !in DayNames
    ensures forall d :: d in DayNames ==> t !in GetTasksByDay(ts, d)
  {
  }

  /**
   * handleSubmit: onAdd(day, text) is called exactly when the typed text has a
   * non-whitespace character and a day is selected; it receives the trimmed text.
   */
  function HandleSubmit(newTask: string, selectedDay: string): (onAdd: Option<(string, string)>)
    ensures onAdd.Some? <==> selectedDay != []
                             && exists i :: 0 <= i < |newTask| && !Strings.IsWhitespace(newTask[i])
    ensures onAdd.Some? ==> onAdd.value.0 == selectedDay
                            && onAdd.value.1 != [] && onAdd.value.1 == Strings.Trim(newTask)
  {
    var text := Strings.Trim(newTask);
    if text != [] && selectedDay != [] then Some((selectedDay, text)) else None
  }
}
