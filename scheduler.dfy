/**
 * The smart scheduler: suggests a time of day for unscheduled habits, open
 * priorities and the selected day's tasks by first-match keyword rules,
 * applies a habit suggestion, and maps a time label to a clock time.
 *
 * The one random choice the rules make (morning or evening for a mindful
 * habit) is a parameter: `draw(i)` is the outcome of `Math.random() > 0.5`
 * for the habit at position i.
 */
module Scheduler {
  import opened Types
  import opened Collections
  import Strings
  import DailyTasks
  import HabitChains

  datatype SuggestionKind = HabitSuggestion | TaskSuggestion | PrioritySuggestion

  /** The seven time labels of the time map. */
  datatype TimeLabel = EarlyMorning | Morning | LateMorning | Afternoon | LateAfternoon | Evening | Night

  /** The label's key in the time map. */
  function LabelText(l: TimeLabel): string
  {
    match l
    case EarlyMorning => "early-morning"
    case Morning => "morning"
    case LateMorning => "late-morning"
    case Afternoon => "afternoon"
    case LateAfternoon => "late-afternoon"
    case Evening => "evening"
    case Night => "night"
  }

  /** The label's clock time in the time map. */
  function SlotOf(l: TimeLabel): string
  {
    match l
    case EarlyMorning => "06:00"
    case Morning => "08:00"
    case LateMorning => "10:00"
    case Afternoon => "14:00"
    case LateAfternoon => "16:00"
    case Evening => "18:00"
    case Night => "20:00"
  }

  /** The explanation shown with a suggestion, one per rule. */
  datatype Reason =
    | ExerciseReason
    | LearningReason
    | MeditationReason
    | ReflectionReason
    | HealthReason
    | RoutineReason
    | UrgentReason
    | LargeReason
    | CreativeReason
    | AdminReason
    | FocusReason
    | PlanningReason
    | ReviewReason
    | HighReason
    | DefaultReason

  /** The text shown for each reason. */
  function ReasonText(r: Reason): string
  {
    match r
    case ExerciseReason => "Exercise is most effective in early morning when willpower is strongest"
    case LearningReason => "Learning activities benefit from peak cognitive performance in morning"
    case MeditationReason => "Morning meditation sets positive tone for the day"
    case ReflectionReason => "Evening reflection helps process the day"
    case HealthReason => "Health habits are best established as part of morning routine"
    case RoutineReason => "Morning routines have highest completion rates"
    case UrgentReason => "Urgent tasks require immediate attention during peak hours"
    case LargeReason => "Large tasks need extended focus time available in morning"
    case CreativeReason => "Creative work benefits from collaborative energy of late morning"
    case AdminReason => "Administrative tasks are perfect for afternoon productivity dip"
    case FocusReason => "High-priority tasks are best tackled when energy is highest"
    case PlanningReason => "Planning tasks are most effective when mind is fresh"
    case ReviewReason => "Review tasks work well during natural afternoon reflection time"
    case HighReason => "High-priority tasks deserve peak performance hours"
    case DefaultReason => "Default optimal scheduling for tasks"
  }

  datatype ScheduleSuggestion = ScheduleSuggestion(
    id: string,
    kind: SuggestionKind,
    itemId: string,
    itemName: string,
    suggestedTime: TimeLabel,
    reason: Reason,
    confidence: int,
    estimatedDuration: int)

  /** The time label, the reason shown, and the confidence a rule picks. */
  datatype Choice = Choice(time: TimeLabel, reason: Reason, confidence: int)

  // ---------------------------------------------------------------------
  // Keyword rules
  // ---------------------------------------------------------------------

  predicate Has(lower: string, word: string)
  {
    Strings.Contains(lower, word)
  }

  predicate ExerciseWords(n: string) { Has(n, "exercise") || Has(n, "workout") || Has(n, "run") }
  predicate LearningWords(n: string) { Has(n, "read") || Has(n, "study") || Has(n, "learn") }
  predicate MindfulWords(n: string) { Has(n, "meditat") || Has(n, "journal") || Has(n, "reflect") }
  predicate HealthWords(n: string) { Has(n, "water") || Has(n, "vitamin") || Has(n, "supplement") }
  predicate CreativeWords(n: string) { Has(n, "creative") || Has(n, "design") || Has(n, "brainstorm") }
  predicate AdminWords(n: string) { Has(n, "email") || Has(n, "admin") || Has(n, "organize") }
  predicate PlanningWords(n: string) { Has(n, "plan") || Has(n, "schedule") || Has(n, "prepare") }
  predicate ReviewWords(n: string) { Has(n, "review") || Has(n, "check") || Has(n, "update") }

  /** Which habit rule matches a lower-cased name, the first one that does. */
  datatype HabitRule = ExerciseRule | LearningRule | MindfulRule | HealthRule | RoutineRule

  function HabitRuleFor(n: string): (r: HabitRule)
    ensures r == ExerciseRule <==> ExerciseWords(n)
    ensures r == LearningRule <==> !ExerciseWords(n) && LearningWords(n)
    ensures r == MindfulRule <==> !ExerciseWords(n) && !LearningWords(n) && MindfulWords(n)
    ensures r == HealthRule <==> !ExerciseWords(n) && !LearningWords(n) && !MindfulWords(n) && HealthWords(n)
  {
    if ExerciseWords(n) then ExerciseRule
    else if LearningWords(n) then LearningRule
    else if MindfulWords(n) then MindfulRule
    else if HealthWords(n) then HealthRule
    else RoutineRule
  }

  /** The habit rules; early is the random draw consulted for mindful habits. */
  function HabitChoice(name: string, early: bool): (c: Choice)
    ensures 70 <= c.confidence <= 85
  {
    RuleChoice(HabitRuleFor(Strings.ToLower(name)), early)
  }

  function RuleChoice(r: HabitRule, early: bool): (c: Choice)
    ensures 70 <= c.confidence <= 85
  {
    match r
    case ExerciseRule =>
      Choice(EarlyMorning, ExerciseReason, 85)
    case LearningRule =>
      Choice(Morning, LearningReason, 80)
    case MindfulRule =>
      if early then Choice(EarlyMorning, MeditationReason, 75)
      else Choice(Evening, ReflectionReason, 75)
    case HealthRule =>
      Choice(Morning, HealthReason, 80)
    case RoutineRule =>
      Choice(Morning, RoutineReason, 70)
  }

  /** Which priority rule matches, the first one that does. */
  datatype PriorityRule = UrgentRule | LargeRule | CreativeRule | AdminRule | FocusRule

  function PriorityRuleFor(p: Priority): (r: PriorityRule)
    ensures r == UrgentRule <==> p.priority == Some(PUrgent)
    ensures r == LargeRule <==> p.priority != Some(PUrgent) && OrDefault(p.estimatedTime, 60) > 120
    ensures r == CreativeRule <==> p.priority != Some(PUrgent) && OrDefault(p.estimatedTime, 60) <= 120
                                   && CreativeWords(Strings.ToLower(p.text))
    ensures r == AdminRule <==> p.priority != Some(PUrgent) && OrDefault(p.estimatedTime, 60) <= 120
                                && !CreativeWords(Strings.ToLower(p.text)) && AdminWords(Strings.ToLower(p.text))
  {
    var n := Strings.ToLower(p.text);
    if p.priority == Some(PUrgent) then UrgentRule
    else if OrDefault(p.estimatedTime, 60) > 120 then LargeRule
    else if CreativeWords(n) then CreativeRule
    else if AdminWords(n) then AdminRule
    else FocusRule
  }

  function PriorityChoice(p: Priority): (c: Choice)
    ensures 70 <= c.confidence <= 90
  {
    match PriorityRuleFor(p)
    case UrgentRule => Choice(Morning, UrgentReason, 90)
    case LargeRule => Choice(Morning, LargeReason, 85)
    case CreativeRule =>
      Choice(LateMorning, CreativeReason, 80)
    case AdminRule => Choice(Afternoon, AdminReason, 70)
    case FocusRule => Choice(Morning, FocusReason, 75)
  }

  /** Which task rule matches, the first one that does. */
  datatype TaskRule = PlanningRule | ReviewRule | HighRule | PlainRule

  function TaskRuleFor(t: DailyTask): (r: TaskRule)
    ensures r == PlanningRule <==> PlanningWords(Strings.ToLower(t.text))
    ensures r == ReviewRule <==> !PlanningWords(Strings.ToLower(t.text)) && ReviewWords(Strings.ToLower(t.text))
    ensures r == HighRule <==> !PlanningWords(Strings.ToLower(t.text)) && !ReviewWords(Strings.ToLower(t.text))
                               && t.priority == Some(THigh)
  {
    var n := Strings.ToLower(t.text);
    if PlanningWords(n) then PlanningRule
    else if ReviewWords(n) then ReviewRule
    else if t.priority == Some(THigh) then HighRule
    else PlainRule
  }

  function TaskChoice(t: DailyTask): (c: Choice)
    ensures 60 <= c.confidence <= 85
  {
    match TaskRuleFor(t)
    case PlanningRule => Choice(EarlyMorning, PlanningReason, 85)
    case ReviewRule => Choice(Afternoon, ReviewReason, 75)
    case HighRule => Choice(Morning, HighReason, 80)
    case PlainRule => Choice(Morning, DefaultReason, 60)
  }

  /**
   * The habit rules are first-match: a name with an exercise word is always
   * an early-morning habit whatever else it mentions, and so on down the
   * list; the confidence tells which group of rules matched.
   */
  lemma HabitChoiceFirstMatch(name: string, early: bool)
    ensures var n := Strings.ToLower(name); var c := HabitChoice(name, early);
            (c.confidence == 85 <==> ExerciseWords(n))
            && (c.confidence == 80 <==> !ExerciseWords(n) && (LearningWords(n) || (!MindfulWords(n) && HealthWords(n))))
            && (c.confidence == 75 <==> !ExerciseWords(n) && !LearningWords(n) && MindfulWords(n))
            && (c.confidence == 70 <==> !ExerciseWords(n) && !LearningWords(n) && !MindfulWords(n) && !HealthWords(n))
            && (ExerciseWords(n) ==> c.time == EarlyMorning)
            && (c.confidence == 75 ==> (c.time == EarlyMorning <==> early) && (c.time == Evening <==> !early))
  {
    var n := Strings.ToLower(name);
    var r := HabitRuleFor(n);
    assert HabitChoice(name, early) == RuleChoice(r, early);
  }

  /** The priority rules: urgency beats size, size beats creative words, creative beats admin words. */
  lemma PriorityChoiceFirstMatch(p: Priority)
    ensures var n := Strings.ToLower(p.text); var c := PriorityChoice(p);
            (c.confidence == 90 <==> p.priority == Some(PUrgent))
            && (c.confidence == 85 <==> p.priority != Some(PUrgent) && OrDefault(p.estimatedTime, 60) > 120)
            && (c.confidence == 80 <==> p.priority != Some(PUrgent) && OrDefault(p.estimatedTime, 60) <= 120
                                        && CreativeWords(n))
            && (c.confidence == 70 <==> p.priority != Some(PUrgent) && OrDefault(p.estimatedTime, 60) <= 120
                                        && !CreativeWords(n) && AdminWords(n))
            && (c.time == Morning <==> c.confidence >= 85 || c.confidence == 75)
  {
    var r := PriorityRuleFor(p);
  }

  /** The task rules: planning words beat review words, which beat a high priority. */
  lemma TaskChoiceFirstMatch(t: DailyTask)
    ensures var n := Strings.ToLower(t.text); var c := TaskChoice(t);
            (c.confidence == 85 <==> PlanningWords(n))
            && (c.confidence == 75 <==> !PlanningWords(n) && ReviewWords(n))
            && (c.confidence == 80 <==> !PlanningWords(n) && !ReviewWords(n) && t.priority == Some(THigh))
            && (c.confidence == 60 <==> !PlanningWords(n) && !ReviewWords(n) && t.priority != Some(THigh))
  {
    var r := TaskRuleFor(t);
  }

  // ---------------------------------------------------------------------
  // The three suggestion passes
  // ---------------------------------------------------------------------

  function SuggestForHabit(h: Habit, early: bool): ScheduleSuggestion
  {
    var c := HabitChoice(h.name, early);
    ScheduleSuggestion("habit-time-" + h.id, HabitSuggestion, h.id, h.name, c.time, c.reason, c.confidence,
                       OrDefault(h.estimatedTime, 15))
  }

  /** Only habits without optimal times get a suggestion; the habit at position i uses draw(i). */
  function HabitSuggestions(hs: seq<Habit>, draw: nat -> bool): seq<ScheduleSuggestion>
  {
    if hs == [] then []
    else
      var i := |hs| - 1;
      HabitSuggestions(hs[..i], draw)
      + (if Untimetabled(hs[i]) then [SuggestForHabit(hs[i], draw(i))] else [])
  }

  function SuggestForPriority(p: Priority): ScheduleSuggestion
  {
    var c := PriorityChoice(p);
    ScheduleSuggestion("priority-time-" + p.id, PrioritySuggestion, p.id, p.text, c.time, c.reason, c.confidence,
                       OrDefault(p.estimatedTime, 60))
  }

  /** Open priorities without a due date. */
  predicate Unscheduled(p: Priority)
  {
    !p.completed && p.dueDate.None?
  }

  function PrioritySuggestions(ps: seq<Priority>): seq<ScheduleSuggestion>
  {
    if ps == [] then []
    else PrioritySuggestions(ps[..|ps| - 1]) + [SuggestForPriority(ps[|ps| - 1])]
  }

  function SuggestForTask(t: DailyTask): ScheduleSuggestion
  {
    var c := TaskChoice(t);
    ScheduleSuggestion("task-time-" + t.id, TaskSuggestion, t.id, t.text, c.time, c.reason, c.confidence,
                       OrDefault(t.estimatedTime, 30))
  }

  /** A task without a (non-empty) suggested time. */
  predicate Untimed(t: DailyTask)
  {
    t.suggestedTime.None? || t.suggestedTime.value == []
  }

  function TaskSuggestions(ts: seq<DailyTask>): seq<ScheduleSuggestion>
  {
    if ts == [] then []
    else
      var t := ts[|ts| - 1];
      TaskSuggestions(ts[..|ts| - 1]) + (if Untimed(t) then [SuggestForTask(t)] else [])
  }

  /** The suggestion list: habits, then open undated priorities, then the selected day's untimed tasks. */
  function Suggestions(hs: seq<Habit>, ps: seq<Priority>, ts: seq<DailyTask>, selectedDay: string,
                       draw: nat -> bool): seq<ScheduleSuggestion>
  {
    HabitSuggestions(hs, draw) + PrioritySuggestions(Filter(ps, Unscheduled))
    + TaskSuggestions(DailyTasks.GetTasksByDay(ts, selectedDay))
  }

  method HabitPass(hs: seq<Habit>, draw: nat -> bool) returns (out: seq<ScheduleSuggestion>)
    ensures out == HabitSuggestions(hs, draw)
  {
    out := [];
    for i := 0 to |hs|
      invariant out == HabitSuggestions(hs[..i], draw)
    {
      assert hs[..i + 1][..i] == hs[..i];
      var habit := hs[i];
      if |habit.optimalTimes| == 0 {
        var c := HabitChoice(habit.name, draw(i));
        out := out + [ScheduleSuggestion("habit-time-" + habit.id, HabitSuggestion, habit.id, habit.name,
                                         c.time, c.reason, c.confidence, OrDefault(habit.estimatedTime, 15))];
      }
    }
    assert hs[..|hs|] == hs;
  }

  method PriorityPass(ps: seq<Priority>) returns (out: seq<ScheduleSuggestion>)
    ensures out == PrioritySuggestions(ps)
  {
    out := [];
    for i := 0 to |ps|
      invariant out == PrioritySuggestions(ps[..i])
    {
      assert ps[..i + 1][..i] == ps[..i];
      out := out + [SuggestForPriority(ps[i])];
    }
    assert ps[..|ps|] == ps;
  }

  method TaskPass(ts: seq<DailyTask>) returns (out: seq<ScheduleSuggestion>)
    ensures out == TaskSuggestions(ts)
  {
    out := [];
    for i := 0 to |ts|
      invariant out == TaskSuggestions(ts[..i])
    {
      assert ts[..i + 1][..i] == ts[..i];
      if Untimed(ts[i]) {
        out := out + [SuggestForTask(ts[i])];
      }
    }
    assert ts[..|ts|] == ts;
  }

  /** generateSuggestions: the three passes, in order. */
  method GenerateSuggestions(hs: seq<Habit>, ps: seq<Priority>, ts: seq<DailyTask>, selectedDay: string,
                             draw: nat -> bool) returns (suggestions: seq<ScheduleSuggestion>)
    ensures suggestions == Suggestions(hs, ps, ts, selectedDay, draw)
  {
    var habitPart := HabitPass(hs, draw);
    var priorityPart := PriorityPass(Filter(ps, Unscheduled));
    var taskPart := TaskPass(DailyTasks.GetTasksByDay(ts, selectedDay));
    suggestions := habitPart + priorityPart + taskPart;
  }

  // ---------------------------------------------------------------------
  // Properties of the suggestion list
  // ---------------------------------------------------------------------

  /** Every suggestion's confidence lies in 60..90. */
  predicate WellFormed(s: ScheduleSuggestion)
  {
    60 <= s.confidence <= 90
  }

  /** A habit with no optimal times of its own. */
  predicate Untimetabled(h: Habit)
  {
    |h.optimalTimes| == 0
  }

  /** `s` is a well-formed habit suggestion made from a habit of `hs` without optimal times. */
  predicate FromUntimetabledHabit(s: ScheduleSuggestion, hs: seq<Habit>)
  {
    WellFormed(s) && s.kind == HabitSuggestion
    && exists i :: 0 <= i < |hs| && Untimetabled(hs[i]) && s.itemId == hs[i].id
                   && s.estimatedDuration == OrDefault(hs[i].estimatedTime, 15)
  }

  lemma FromUntimetabledHabitPrefix(s: ScheduleSuggestion, hs: seq<Habit>, n: nat)
    requires n <= |hs| && FromUntimetabledHabit(s, hs[..n])
    ensures FromUntimetabledHabit(s, hs)
  {
    var j :| 0 <= j < n && Untimetabled(hs[..n][j]) && s.itemId == hs[..n][j].id
             && s.estimatedDuration == OrDefault(hs[..n][j].estimatedTime, 15);
    assert hs[j] == hs[..n][j];
  }

  lemma FromUntimetabledHabitAt(hs: seq<Habit>, i: nat, early: bool)
    requires i < |hs| && Untimetabled(hs[i])
    ensures FromUntimetabledHabit(SuggestForHabit(hs[i], early), hs)
  {
  }

  /**
   * The habit pass makes as many suggestions as there are habits without
   * optimal times, and each comes from such a habit.
   */
  lemma {:induction false} HabitSuggestionsExact(hs: seq<Habit>, draw: nat -> bool)
    ensures |HabitSuggestions(hs, draw)| == Count(hs, Untimetabled)
    ensures forall s :: s in HabitSuggestions(hs, draw) ==> FromUntimetabledHabit(s, hs)
  {
    if hs != [] {
      var i := |hs| - 1;
      HabitSuggestionsExact(hs[..i], draw);
      CountSplit(hs, Untimetabled);
      forall s | s in HabitSuggestions(hs, draw)
        ensures FromUntimetabledHabit(s, hs)
      {
        if s in HabitSuggestions(hs[..i], draw) {
          FromUntimetabledHabitPrefix(s, hs, i);
        } else {
          FromUntimetabledHabitAt(hs, i, draw(i));
        }
      }
    }
  }

  /** Counting the last element separately. */
  lemma {:induction false} CountSplit<T>(s: seq<T>, keep: T -> bool)
    requires s != []
    ensures Count(s, keep) == Count(s[..|s| - 1], keep) + (if keep(s[|s| - 1]) then 1 else 0)
  {
    if |s| > 1 {
      CountSplit(s[1..], keep);
      assert s[1..][..|s[1..]| - 1] == s[..|s| - 1][1..];
    }
  }

  lemma {:induction false} PrioritySuggestionsShape(ps: seq<Priority>)
    ensures |PrioritySuggestions(ps)| == |ps|
    ensures forall i :: 0 <= i < |ps| ==>
              var s := PrioritySuggestions(ps)[i];
              WellFormed(s) && s.kind == PrioritySuggestion && s.itemId == ps[i].id
              && s.estimatedDuration == OrDefault(ps[i].estimatedTime, 60)
  {
    if ps != [] {
      PrioritySuggestionsShape(ps[..|ps| - 1]);
    }
  }

  /** `s` is a well-formed task suggestion made from an untimed task of `ts`. */
  predicate FromUntimedTask(s: ScheduleSuggestion, ts: seq<DailyTask>)
  {
    WellFormed(s) && s.kind == TaskSuggestion
    && exists i :: 0 <= i < |ts| && Untimed(ts[i]) && s.itemId == ts[i].id
                   && s.estimatedDuration == OrDefault(ts[i].estimatedTime, 30)
  }

  lemma FromUntimedTaskPrefix(s: ScheduleSuggestion, ts: seq<DailyTask>, n: nat)
    requires n <= |ts| && FromUntimedTask(s, ts[..n])
    ensures FromUntimedTask(s, ts)
  {
    var j :| 0 <= j < n && Untimed(ts[..n][j]) && s.itemId == ts[..n][j].id
             && s.estimatedDuration == OrDefault(ts[..n][j].estimatedTime, 30);
    assert ts[j] == ts[..n][j];
  }

  lemma FromUntimedTaskAt(ts: seq<DailyTask>, i: nat)
    requires i < |ts| && Untimed(ts[i])
    ensures FromUntimedTask(SuggestForTask(ts[i]), ts)
  {
  }

  lemma {:induction false} TaskSuggestionsShape(ts: seq<DailyTask>)
    ensures |TaskSuggestions(ts)| == Count(ts, Untimed)
    ensures forall s :: s in TaskSuggestions(ts) ==> FromUntimedTask(s, ts)
  {
    if ts != [] {
      var i := |ts| - 1;
      TaskSuggestionsShape(ts[..i]);
      CountSplit(ts, Untimed);
      forall s | s in TaskSuggestions(ts)
        ensures FromUntimedTask(s, ts)
      {
        if s in TaskSuggestions(ts[..i]) {
          FromUntimedTaskPrefix(s, ts, i);
        } else {
          FromUntimedTaskAt(ts, i);
        }
      }
    }
  }

  function Rank(k: SuggestionKind): nat
  {
    match k
    case HabitSuggestion => 0
    case PrioritySuggestion => 1
    case TaskSuggestion => 2
  }

  /**
   * The list holds habit suggestions, then priority suggestions, then task
   * suggestions, and every confidence is within 60..90.
   */
  lemma SuggestionsOrdered(hs: seq<Habit>, ps: seq<Priority>, ts: seq<DailyTask>, selectedDay: string,
                           draw: nat -> bool)
    ensures var r := Suggestions(hs, ps, ts, selectedDay, draw);
            (forall i, j :: 0 <= i < j < |r| ==> Rank(r[i].kind) <= Rank(r[j].kind))
            && forall i :: 0 <= i < |r| ==> WellFormed(r[i])
  {
    var a := HabitSuggestions(hs, draw);
    var b := PrioritySuggestions(Filter(ps, Unscheduled));
    var c := TaskSuggestions(DailyTasks.GetTasksByDay(ts, selectedDay));
    HabitSuggestionsExact(hs, draw);
    PrioritySuggestionsShape(Filter(ps, Unscheduled));
    TaskSuggestionsShape(DailyTasks.GetTasksByDay(ts, selectedDay));
    assert forall x :: x in b ==> WellFormed(x) && x.kind == PrioritySuggestion;
    KindsInOrder(a, b, c);
  }

  lemma KindsInOrder(a: seq<ScheduleSuggestion>, b: seq<ScheduleSuggestion>, c: seq<ScheduleSuggestion>)
    requires forall x :: x in a ==> WellFormed(x) && x.kind == HabitSuggestion
    requires forall x :: x in b ==> WellFormed(x) && x.kind == PrioritySuggestion
    requires forall x :: x in c ==> WellFormed(x) && x.kind == TaskSuggestion
    ensures var r := a + b + c;
            (forall i, j :: 0 <= i < j < |r| ==> Rank(r[i].kind) <= Rank(r[j].kind))
            && forall i :: 0 <= i < |r| ==> WellFormed(r[i])
  {
    var r := a + b + c;
    forall i | 0 <= i < |r|
      ensures WellFormed(r[i])
      ensures i < |a| ==> r[i].kind == HabitSuggestion
      ensures |a| <= i < |a| + |b| ==> r[i].kind == PrioritySuggestion
      ensures |a| + |b| <= i ==> r[i].kind == TaskSuggestion
    {
      if i < |a| {
        assert r[i] == a[i];
      } else if i < |a| + |b| {
        assert r[i] == b[i - |a|];
      } else {
        assert r[i] == c[i - |a| - |b|];
      }
    }
  }

  // ---------------------------------------------------------------------
  // Time slots and applying a suggestion
  // ---------------------------------------------------------------------

  /**
   * getTimeSlotForSuggestion: the clock time of a time-map key, and 08:00
   * for a string that is not a key.
   */
  function TimeSlotFor(name: string): (r: string)
    ensures forall l: TimeLabel :: name == LabelText(l) ==> r == SlotOf(l)
    ensures (forall l: TimeLabel :: name != LabelText(l)) ==> r == "08:00"
  {
    match KeyOf(name)
    case Some(l) => SlotOf(l)
    case None => "08:00"
  }

  /** The label whose key is the given string, if any. */
  function KeyOf(name: string): (r: Option<TimeLabel>)
    ensures r.Some? ==> LabelText(r.value) == name
    ensures r.None? ==> forall l: TimeLabel :: name != LabelText(l)
  {
    if name == "early-morning" then Some(EarlyMorning)
    else if name == "morning" then Some(Morning)
    else if name == "late-morning" then Some(LateMorning)
    else if name == "afternoon" then Some(Afternoon)
    else if name == "late-afternoon" then Some(LateAfternoon)
    else if name == "evening" then Some(Evening)
    else if name == "night" then Some(Night)
    else None
  }

  /** Distinct labels have distinct keys and distinct clock times. */
  lemma LabelsDistinct(a: TimeLabel, b: TimeLabel)
    requires a != b
    ensures LabelText(a) != LabelText(b)
    ensures SlotOf(a) != SlotOf(b)
  {
  }

  /** An update of one habit's optimal times, handed to the caller. */
  datatype TimesUpdate = OptimalTimes(habitId: string, times: seq<string>)

  /** The suggestions other than the one with the given id, order kept. */
  function Dismiss(ss: seq<ScheduleSuggestion>, id: string): (r: seq<ScheduleSuggestion>)
    ensures forall s :: s in r <==> s in ss && s.id != id
    ensures |r| <= |ss|
  {
    if ss == [] then []
    else (if ss[0].id == id then [] else [ss[0]]) + Dismiss(ss[1..], id)
  }

  /** The habit update applySuggestion hands out: a habit suggestion for an existing habit appends its time. */
  function HabitTimesUpdate(s: ScheduleSuggestion, hs: seq<Habit>): (r: Option<TimesUpdate>)
    ensures r.Some? <==> s.kind == HabitSuggestion && HabitChains.Find(hs, s.itemId).Some?
    ensures r.Some? ==> r.value.habitId == s.itemId
                        && r.value.times == HabitChains.Find(hs, s.itemId).value.optimalTimes + [LabelText(s.suggestedTime)]
  {
    if s.kind == HabitSuggestion then
      var habit := HabitChains.Find(hs, s.itemId);
      if habit.Some? then Some(OptimalTimes(s.itemId, habit.value.optimalTimes + [LabelText(s.suggestedTime)])) else None
    else None
  }

  /** An applied habit suggestion is not offered again for that habit by the next pass. */
  lemma AppliedHabitNotSuggested(s: ScheduleSuggestion, hs: seq<Habit>, draw: nat -> bool)
    ensures var r := HabitTimesUpdate(s, hs);
            r.Some? ==>
              var updated := HabitChains.Find(hs, s.itemId).value.(optimalTimes := r.value.times);
              HabitSuggestions([updated], draw) == []
  {
    var r := HabitTimesUpdate(s, hs);
    if r.Some? {
      var updated := HabitChains.Find(hs, s.itemId).value.(optimalTimes := r.value.times);
      assert [updated][..0] == [];
    }
  }

  /** The scheduler panel: the current suggestions and the selected day. */
  class SchedulerPanel {
    var suggestions: seq<ScheduleSuggestion>
    var selectedDay: string

    constructor ()
      ensures suggestions == [] && selectedDay == "monday"
    {
      suggestions := [];
      selectedDay := "monday";
    }

    /** A completed analysis replaces the suggestions. */
    method Analyze(hs: seq<Habit>, ps: seq<Priority>, ts: seq<DailyTask>, draw: nat -> bool)
      modifies this
      ensures suggestions == Suggestions(hs, ps, ts, selectedDay, draw)
      ensures selectedDay == old(selectedDay)
    {
      suggestions := GenerateSuggestions(hs, ps, ts, selectedDay, draw);
    }

    /**
     * applySuggestion: hand out the habit update for a habit suggestion, and
     * drop every suggestion with that id, whatever its kind.
     */
    method ApplySuggestion(s: ScheduleSuggestion, hs: seq<Habit>) returns (update: Option<TimesUpdate>)
      modifies this
      ensures update == HabitTimesUpdate(s, hs)
      ensures suggestions == Dismiss(old(suggestions), s.id)
      ensures s.id !in set x | x in suggestions :: x.id
      ensures selectedDay == old(selectedDay)
    {
      update := HabitTimesUpdate(s, hs);
      suggestions := Dismiss(suggestions, s.id);
    }
  }
}
