/**
 * The habit tracker card: a habit's weekly progress, its current streak, and
 * the guard on the "add habit" form.
 */
module HabitTracker {
  import opened Types
  import Strings

  /** getHabitProgress: the checked days out of seven, as a percentage. */
  function HabitProgress(h: Habit): (r: real)
    ensures 0.0 <= r <= 100.0
    ensures r == 0.0 <==> forall d :: 0 <= d < 7 ==> !h.completedDays[d]
    ensures r == 100.0 <==> forall d :: 0 <= d < 7 ==> h.completedDays[d]
  {
    Percent(CountTrue(h.completedDays), 7)
  }

  /**
   * The length of the run of true flags that ends the sequence: every flag in
   * that run is true and the flag just before it, if any, is false.
   */
  function TrailingRun(s: seq<bool>): (n: nat)
    ensures n <= |s|
    ensures forall i :: |s| - n <= i < |s| ==> s[i]
    ensures n < |s| ==> !s[|s| - n - 1]
  {
    if s == [] || !s[|s| - 1] then 0 else 1 + TrailingRun(s[..|s| - 1])
  }

  /** The two properties in TrailingRun's contract pin the run length down. */
  lemma TrailingRunUnique(s: seq<bool>, n: nat)
    requires n <= |s|
    requires forall i :: |s| - n <= i < |s| ==> s[i]
    requires n < |s| ==> !s[|s| - n - 1]
    ensures n == TrailingRun(s)
  {
  }

  /**
   * getStreak: walk the week from sunday back to monday, counting checked
   * days, and stop at the first unchecked one.
   */
  method GetStreak(w: seq<bool>) returns (streak: nat)
    ensures streak == TrailingRun(w)
  {
    streak := 0;
    var i := |w| - 1;
    while i >= 0
      invariant -1 <= i < |w|
      invariant streak == |w| - 1 - i
      invariant forall j :: i < j < |w| ==> w[j]
    {
      if w[i] {
        streak := streak + 1;
      } else {
        TrailingRunUnique(w, streak);
        return;
      }
      i := i - 1;
    }
    TrailingRunUnique(w, streak);
  }

  /** The streak of a week lies in 0..7 and never exceeds the number of checked days. */
  lemma {:induction false} StreakBounds(s: seq<bool>)
    ensures TrailingRun(s) <= CountTrue(s) <= |s|
  {
    if s != [] && s[|s| - 1] {
      var init := s[..|s| - 1];
      assert s == init + [true];
      CountTrueAppend(init, [true]);
      StreakBounds(init);
    }
  }

  /** A full week gives a streak of 7; an unchecked sunday gives 0. */
  lemma StreakExtremes(w: Week)
    ensures TrailingRun(w) == 7 <==> forall d :: 0 <= d < 7 ==> w[d]
    ensures TrailingRun(w) == 0 <==> !w[Sunday]
  {
  }

  /**
   * handleSubmit: onAdd is called, with the trimmed name, exactly when the
   * typed name has a non-whitespace character.
   */
  function HandleSubmit(newHabit: string): (onAdd: Option<string>)
    ensures onAdd.Some? <==> exists i :: 0 <= i < |newHabit| && !Strings.IsWhitespace(newHabit[i])
    ensures onAdd.Some? ==> onAdd.value != [] && onAdd.value == Strings.Trim(newHabit)
  {
    var name := Strings.Trim(newHabit);
    if name != [] then Some(name) else None
  }
}
