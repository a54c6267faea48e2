/**
 * The weekly priorities card: its completed count, its completion rate and
 * the guard on the "add priority" form.
 */
module WeeklyPriorities {
  import opened Types
  import opened Collections
  import Strings
  import DashboardData

  /** completedCount: the number of completed priorities. */
  function CompletedCount(ps: seq<Priority>): (n: nat)
    ensures n <= |ps|
    ensures n == |Filter(ps, (p: Priority) => p.completed)|
  {
    CountIsFilterLength(ps, (p: Priority) => p.completed);
    DashboardData.PrioritiesCompleted(ps)
  }

  /** completionRate: 0 for an empty list, else completed / total * 100. */
  function CompletionRate(ps: seq<Priority>): (r: real)
    ensures 0.0 <= r <= 100.0
    ensures ps == [] ==> r == 0.0
    ensures r == 100.0 <==> ps != [] && forall i :: 0 <= i < |ps| ==> ps[i].completed
    ensures r == 0.0 <==> forall i :: 0 <= i < |ps| ==> !ps[i].completed
  {
    Percent(CompletedCount(ps), |ps|)
  }

  /** The card shows the same rate as the dashboard's weekly statistics. */
  lemma CardRateMatchesStats(ps: seq<Priority>, hs: seq<Habit>, ts: seq<DailyTask>)
    ensures CompletionRate(ps) == DashboardData.WeeklyStatsOf(ps, hs, ts).prioritiesCompletionRate
    ensures CompletedCount(ps) == DashboardData.WeeklyStatsOf(ps, hs, ts).prioritiesCompleted
  {
  }

  /**
   * handleSubmit: onAdd is called, with the trimmed text, exactly when the
   * typed text has a non-whitespace character.
   */
  function HandleSubmit(newPriority: string): (onAdd: Option<string>)
    ensures onAdd.Some? <==> exists i :: 0 <= i < |newPriority| && !Strings.IsWhitespace(newPriority[i])
    ensures onAdd.Some? ==> onAdd.value != [] && onAdd.value == Strings.Trim(newPriority)
  {
    var text := Strings.Trim(newPriority);
    if text != [] then Some(text) else None
  }
}
