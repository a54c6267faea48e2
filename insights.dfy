/**
 * The insight engine: a fixed set of threshold rules over the habits,
 * priorities and daily tasks, each of which may emit one advisory insight,
 * and the category filter of the insight list.
 *
 * `Insights` states the whole generated list as a function of the inputs;
 * `GenerateInsights` builds it the way the engine does (pushing onto a list,
 * tallying tasks per day, scanning each week for a streak opportunity) and is
 * proved to produce exactly that list.
 */
module Insights {
  import opened Types
  import opened Collections
  import HabitTracker
  import WeeklyPriorities

  /** Milliseconds in a day. */
  const DayMs: int := 1000 * 60 * 60 * 24

  // ---------------------------------------------------------------------
  // The insights each rule emits
  // ---------------------------------------------------------------------

  /** Every insight the engine emits is actionable, carries an action and is not dismissed. */
  function Make(id: string, kind: InsightType, title: string, action: string, confidence: int,
                now: int, category: InsightCategory): SmartInsight
  {
    SmartInsight(id, kind, title, true, Some(action), confidence, now, None, category)
  }

  function StrugglingId(h: Habit): string { "habit-struggling-" + h.id }
  function SuccessId(h: Habit): string { "habit-success-" + h.id }
  function OpportunityId(h: Habit): string { "streak-opportunity-" + h.id }

  function Struggling(h: Habit, now: int): SmartInsight
  {
    Make(StrugglingId(h), HabitInsight, "\"" + h.name + "\" needs attention",
         "Simplify habit", 85, now, Warning)
  }

  function Success(h: Habit, now: int): SmartInsight
  {
    Make(SuccessId(h), HabitInsight, "\"" + h.name + "\" is crushing it! \U{1F389}",
         "Expand habit stack", 90, now, Performance)
  }

  function PrioritiesOverload(now: int): SmartInsight
  {
    Make("priorities-overload", PriorityInsight, "Priority overload detected",
         "Reduce weekly priorities", 80, now, Productivity)
  }

  function MorningMissing(now: int): SmartInsight
  {
    Make("morning-routine-missing", HabitInsight, "Missing morning routine",
         "Add morning habit", 75, now, Timing)
  }

  function BestDay(day: string, now: int): SmartInsight
  {
    Make("best-day-insight", GeneralInsight, day + " is your power day!",
         "Schedule important tasks on " + day, 85, now, Timing)
  }

  function WorstDay(day: string, now: int): SmartInsight
  {
    Make("worst-day-insight", GeneralInsight, day + " needs optimization",
         "Optimize " + day + " schedule", 75, now, Productivity)
  }

  function HabitOverload(now: int): SmartInsight
  {
    Make("habit-overload", GeneralInsight, "Too many new habits at once",
         "Focus on top 2 habits", 90, now, Warning)
  }

  function Opportunity(h: Habit, now: int): SmartInsight
  {
    Make(OpportunityId(h), HabitInsight, "Streak opportunity: \"" + h.name + "\"",
         "Complete habit today", 70, now, StreakCategory)
  }

  // ---------------------------------------------------------------------
  // Habit consistency
  // ---------------------------------------------------------------------

  /** A habit under 30% of the week struggles; one over 85% succeeds. */
  function HabitRule(h: Habit, now: int): seq<SmartInsight>
  {
    var rate := HabitTracker.HabitProgress(h);
    if rate < 30.0 then [Struggling(h, now)]
    else if rate > 85.0 then [Success(h, now)]
    else []
  }

  /** The consistency rule applied to every habit, in list order. */
  function HabitRules(hs: seq<Habit>, now: int): seq<SmartInsight>
  {
    if hs == [] then [] else HabitRules(hs[..|hs| - 1], now) + HabitRule(hs[|hs| - 1], now)
  }

  /**
   * The percentage thresholds are day counts: under 30% of seven days is at
   * most two days, over 85% is at least six; a habit gets one of the two
   * insights or neither, never both.
   */
  lemma HabitRuleThresholds(h: Habit, now: int)
    ensures HabitRule(h, now) == [Struggling(h, now)] <==> CountTrue(h.completedDays) <= 2
    ensures HabitRule(h, now) == [Success(h, now)] <==> CountTrue(h.completedDays) >= 6
    ensures HabitRule(h, now) == [] <==> 3 <= CountTrue(h.completedDays) <= 5
  {
    var c := CountTrue(h.completedDays);
    PercentCompare(c, 7, 30.0);
    PercentCompare(c, 7, 85.0);
    assert Struggling(h, now) != Success(h, now) by {
      assert Struggling(h, now).confidence != Success(h, now).confidence;
    }
  }

  // ---------------------------------------------------------------------
  // Priorities and timing
  // ---------------------------------------------------------------------

  function PriorityRule(ps: seq<Priority>, now: int): seq<SmartInsight>
  {
    if WeeklyPriorities.CompletionRate(ps) < 50.0 && |ps| > 0 then [PrioritiesOverload(now)] else []
  }

  lemma BelowHalf(done: nat, total: nat)
    requires done <= total && total > 0
    ensures Percent(done, total) < 50.0 <==> 2 * done < total
  {
    PercentCompare(done, total, 50.0);
  }

  /** Priority overload: there are priorities and fewer than half of them are completed. */
  lemma PriorityRuleFires(ps: seq<Priority>, now: int)
    ensures PriorityRule(ps, now) != [] <==> |ps| > 0 && 2 * WeeklyPriorities.CompletedCount(ps) < |ps|
  {
    if |ps| > 0 {
      BelowHalf(WeeklyPriorities.CompletedCount(ps), |ps|);
    }
  }

  predicate HasMorning(h: Habit)
  {
    "morning" in h.optimalTimes
  }

  function MorningRule(hs: seq<Habit>, now: int): seq<SmartInsight>
  {
    if |Filter(hs, HasMorning)| == 0 && |hs| > 0 then [MorningMissing(now)] else []
  }

  /** The morning routine is missing when there are habits and none of them is timed for the morning. */
  lemma MorningRuleFires(hs: seq<Habit>, now: int)
    ensures MorningRule(hs, now) != [] <==> |hs| > 0 && forall i :: 0 <= i < |hs| ==> "morning" !in hs[i].optimalTimes
  {
    if |hs| > 0 && forall i :: 0 <= i < |hs| ==> "morning" !in hs[i].optimalTimes {
      FilterExtremes(hs, HasMorning);
    }
  }

  // ---------------------------------------------------------------------
  // Tasks per day
  // ---------------------------------------------------------------------

  /** The day keys of the tasks, each once, in the order they first occur. */
  function DayKeys(ts: seq<DailyTask>): (keys: seq<string>)
    ensures forall i, j :: 0 <= i < j < |keys| ==> keys[i] != keys[j]
    ensures forall d :: d in keys <==> exists i :: 0 <= i < |ts| && ts[i].day == d
  {
    if ts == [] then []
    else
      var keys := DayKeys(ts[..|ts| - 1]);
      var d := ts[|ts| - 1].day;
      if d in keys then keys else keys + [d]
  }

  /** The number of tasks on a given day. */
  function DayTally(ts: seq<DailyTask>, d: string): (n: nat)
    ensures n <= |ts|
    ensures n == 0 <==> forall i :: 0 <= i < |ts| ==> ts[i].day != d
  {
    if ts == [] then 0
    else DayTally(ts[..|ts| - 1], d) + (if ts[|ts| - 1].day == d then 1 else 0)
  }

  lemma {:induction false} DayTallyAppend(a: seq<DailyTask>, b: seq<DailyTask>, d: string)
    ensures DayTally(a + b, d) == DayTally(a, d) + DayTally(b, d)
  {
    if b == [] {
      assert a + b == a;
    } else {
      assert (a + b)[..|a + b| - 1] == a + b[..|b| - 1];
      DayTallyAppend(a, b[..|b| - 1], d);
    }
  }

  predicate IsDone(t: DailyTask)
  {
    t.completed
  }

  /** Keeping only some tasks never raises a day's tally. */
  lemma DayTallySnoc(ts: seq<DailyTask>, t: DailyTask, d: string)
    ensures DayTally(ts + [t], d) == DayTally(ts, d) + (if t.day == d then 1 else 0)
  {
    assert (ts + [t])[..|ts|] == ts;
  }

  lemma {:induction false} FilteredTallyBound(ts: seq<DailyTask>, d: string)
    ensures DayTally(Filter(ts, IsDone), d) <= DayTally(ts, d)
  {
    if ts != [] {
      var init, last := ts[..|ts| - 1], ts[|ts| - 1];
      assert ts == init + [last];
      FilteredTallyBound(init, d);
      FilterSnoc(init, last, IsDone);
      DayTallySnoc(init, last, d);
      var f := Filter(init, IsDone);
      if IsDone(last) {
        assert Filter(ts, IsDone) == f + [last];
        DayTallySnoc(f, last, d);
      } else {
        assert Filter(ts, IsDone) == f;
      }
      assert DayTally(ts, d) == DayTally(init, d) + (if last.day == d then 1 else 0);
    }
  }

  lemma TallyStep(ts: seq<DailyTask>, i: nat)
    requires i < |ts|
    ensures DayKeys(ts[..i + 1]) == if ts[i].day in DayKeys(ts[..i]) then DayKeys(ts[..i]) else DayKeys(ts[..i]) + [ts[i].day]
    ensures forall d :: DayTally(ts[..i + 1], d) == DayTally(ts[..i], d) + (if ts[i].day == d then 1 else 0)
  {
    assert ts[..i + 1][..i] == ts[..i];
  }

  /** One step of the tally keeps the keys and the counts in step with the tasks seen so far. */
  lemma TallyKept(ts: seq<DailyTask>, i: nat, keys: seq<string>, counts: map<string, nat>,
                  keys': seq<string>, counts': map<string, nat>)
    requires i < |ts|
    requires keys == DayKeys(ts[..i])
    requires forall d :: d in counts <==> d in keys
    requires forall d :: d in counts ==> counts[d] == DayTally(ts[..i], d)
    requires ts[i].day in counts ==> keys' == keys && counts' == counts[ts[i].day := counts[ts[i].day] + 1]
    requires ts[i].day !in counts ==> keys' == keys + [ts[i].day] && counts' == counts[ts[i].day := 1]
    ensures keys' == DayKeys(ts[..i + 1])
    ensures forall d :: d in counts' <==> d in keys'
    ensures forall d :: d in counts' ==> counts'[d] == DayTally(ts[..i + 1], d)
  {
    TallyStep(ts, i);
    var e := ts[i].day;
    if e !in counts {
      assert DayTally(ts[..i], e) == 0 by {
        assert e !in DayKeys(ts[..i]);
      }
    }
    forall d | d in counts'
      ensures counts'[d] == DayTally(ts[..i + 1], d)
    {
      if d != e {
        assert counts'[d] == counts[d];
      }
    }
  }

  /**
   * The engine's tally of tasks per day: the keys in first-occurrence order
   * and, for each key, its number of tasks.
   */
  method TallyByDay(ts: seq<DailyTask>) returns (keys: seq<string>, counts: map<string, nat>)
    ensures keys == DayKeys(ts)
    ensures forall d :: d in counts <==> d in keys
    ensures forall d :: d in counts ==> counts[d] == DayTally(ts, d)
  {
    keys := [];
    counts := map[];
    for i := 0 to |ts|
      invariant keys == DayKeys(ts[..i])
      invariant forall d :: d in counts <==> d in keys
      invariant forall d :: d in counts ==> counts[d] == DayTally(ts[..i], d)
    {
      var d := ts[i].day;
      ghost var keys0, counts0 := keys, counts;
      if d in counts {
        counts := counts[d := counts[d] + 1];
      } else {
        keys := keys + [d];
        counts := counts[d := 1];
      }
      TallyKept(ts, i, keys0, counts0, keys, counts);
    }
    assert ts[..|ts|] == ts;
  }

  /** One entry of the day-performance table. */
  datatype DayPerf = DayPerf(day: string, total: nat, completed: nat, rate: real)

  /** The performance of one day: its tasks, its completed tasks, and the rate. */
  function PerfOf(ts: seq<DailyTask>, d: string): (p: DayPerf)
    ensures p.day == d && p.completed <= p.total
    ensures 0.0 <= p.rate <= 100.0
  {
    var total := DayTally(ts, d);
    var done := DayTally(Filter(ts, IsDone), d);
    FilteredTallyBound(ts, d);
    DayPerf(d, total, done, Percent(done, total))
  }

  /** The day-performance table, one entry per day that has a task. */
  function DayPerformance(ts: seq<DailyTask>): (perf: seq<DayPerf>)
    ensures |perf| == |DayKeys(ts)|
    ensures forall i :: 0 <= i < |perf| ==> perf[i] == PerfOf(ts, DayKeys(ts)[i])
  {
    var keys := DayKeys(ts);
    seq(|keys|, i requires 0 <= i < |keys| => PerfOf(ts, keys[i]))
  }

  /**
   * The table covers exactly the days that have at least one task, each once,
   * and every rate is the completed share of that day's tasks.
   */
  lemma PerformanceCoversTaskDays(ts: seq<DailyTask>)
    ensures forall d :: d in DayKeys(ts) <==> DayTally(ts, d) >= 1
    ensures forall i :: 0 <= i < |DayPerformance(ts)| ==>
              var p := DayPerformance(ts)[i];
              p.total >= 1 && p.rate == p.completed as real / p.total as real * 100.0
  {
    var keys := DayKeys(ts);
    forall d | d in keys
      ensures DayTally(ts, d) >= 1
    {
      var i :| 0 <= i < |ts| && ts[i].day == d;
    }
    forall i | 0 <= i < |keys|
      ensures DayTally(ts, keys[i]) >= 1
    {
      assert keys[i] in keys;
    }
  }

  /**
   * The first entry of the table after the stable sort by descending rate:
   * the first entry with the highest rate.
   */
  function BestIndex(perf: seq<DayPerf>): (b: nat)
    requires perf != []
    ensures b < |perf|
    ensures forall j :: 0 <= j < |perf| ==> perf[j].rate <= perf[b].rate
    ensures forall j :: 0 <= j < b ==> perf[j].rate < perf[b].rate
  {
    if |perf| == 1 then 0
    else
      var b := BestIndex(perf[..|perf| - 1]);
      if perf[|perf| - 1].rate > perf[b].rate then |perf| - 1 else b
  }

  /**
   * The last entry of the table after the stable sort by descending rate:
   * the last entry with the lowest rate.
   */
  function WorstIndex(perf: seq<DayPerf>): (w: nat)
    requires perf != []
    ensures w < |perf|
    ensures forall j :: 0 <= j < |perf| ==> perf[w].rate <= perf[j].rate
    ensures forall j :: w < j < |perf| ==> perf[w].rate < perf[j].rate
  {
    if |perf| == 1 then 0
    else
      var w := WorstIndex(perf[..|perf| - 1]);
      if perf[|perf| - 1].rate <= perf[w].rate then |perf| - 1 else w
  }

  /** The best day over 80% is a power day; the worst day under 40% with more than one task needs work. */
  function DayRulesOf(perf: seq<DayPerf>, now: int): seq<SmartInsight>
  {
    if perf == [] then []
    else
      var best := perf[BestIndex(perf)];
      var worst := perf[WorstIndex(perf)];
      (if best.rate > 80.0 then [BestDay(best.day, now)] else [])
      + (if worst.rate < 40.0 && worst.total > 1 then [WorstDay(worst.day, now)] else [])
  }

  /** The day rules emit at most a power-day and a needs-optimization insight, in that order. */
  lemma DayRulesShape(perf: seq<DayPerf>, now: int)
    ensures var r := DayRulesOf(perf, now);
            |r| <= 2 && (|r| == 2 ==> r[0].id == "best-day-insight" && r[1].id == "worst-day-insight")
            && forall x :: x in r ==> ((x.id == "best-day-insight" && x.confidence == 85)
                                        || (x.id == "worst-day-insight" && x.confidence == 75)) && x.actionable
  {
  }

  function DayRules(ts: seq<DailyTask>, now: int): seq<SmartInsight>
  {
    DayRulesOf(DayPerformance(ts), now)
  }

  /** Because the best day has the highest rate, the power-day insight appears exactly when some day's rate exceeds 80%. */
  lemma BestDayFires(perf: seq<DayPerf>, now: int)
    ensures (exists x :: x in DayRulesOf(perf, now) && x.id == "best-day-insight")
            <==> exists i :: 0 <= i < |perf| && perf[i].rate > 80.0
  {
    if perf != [] {
      var best := perf[BestIndex(perf)];
      var r := DayRulesOf(perf, now);
      if best.rate > 80.0 {
        assert BestDay(best.day, now) in r;
      } else {
        assert forall x :: x in r ==> x.id == "worst-day-insight";
      }
    }
  }

  lemma BelowFortyPercent(done: nat, total: nat)
    requires done <= total && total > 0
    ensures Percent(done, total) < 40.0 <==> 5 * done < 2 * total
  {
    PercentCompare(done, total, 40.0);
  }

  /**
   * The needs-optimization insight judges only the last lowest-rate day: it
   * appears exactly when that day has more than one task and fewer than 2 in
   * 5 of them are completed.
   */
  lemma WorstDayFires(perf: seq<DayPerf>, now: int)
    requires forall i :: 0 <= i < |perf| ==>
               perf[i].completed <= perf[i].total && perf[i].rate == Percent(perf[i].completed, perf[i].total)
    ensures (exists x :: x in DayRulesOf(perf, now) && x.id == "worst-day-insight")
            <==> perf != [] && var w := perf[WorstIndex(perf)];
                 w.total > 1 && 5 * w.completed < 2 * w.total
  {
    if perf != [] {
      var worst := perf[WorstIndex(perf)];
      WorstDayMember(perf, now);
      if worst.total > 1 {
        BelowFortyPercent(worst.completed, worst.total);
      }
    }
  }

  /** The needs-optimization insight is in the list exactly when the worst day's rule fires. */
  lemma WorstDayMember(perf: seq<DayPerf>, now: int)
    requires perf != []
    ensures var worst := perf[WorstIndex(perf)];
            (exists x :: x in DayRulesOf(perf, now) && x.id == "worst-day-insight")
            <==> worst.rate < 40.0 && worst.total > 1
  {
    var worst := perf[WorstIndex(perf)];
    var best := perf[BestIndex(perf)];
    var head := if best.rate > 80.0 then [BestDay(best.day, now)] else [];
    var tail := if worst.rate < 40.0 && worst.total > 1 then [WorstDay(worst.day, now)] else [];
    assert DayRulesOf(perf, now) == head + tail;
    assert forall x :: x in head ==> x.id == "best-day-insight";
    if tail != [] {
      assert tail[0] in head + tail;
    }
  }

  // ---------------------------------------------------------------------
  // New habits
  // ---------------------------------------------------------------------

  /** The habit was created at most seven days before now, measured in fractional days. */
  predicate Recent(h: Habit, now: int)
  {
    (now - h.createdAt) as real / DayMs as real <= 7.0
  }

  /** Seven days of fractional age is exactly 604800000 milliseconds. */
  lemma RecentIsWithinWeek(h: Habit, now: int)
    ensures Recent(h, now) <==> now - h.createdAt <= 604800000
  {
    var age := (now - h.createdAt) as real;
    assert age / 86400000.0 * 86400000.0 == age;
  }

  /** The filter of the trend analysis: a habit at most seven fractional days old. */
  function IsRecent(now: int): Habit -> bool
  {
    (h: Habit) => Recent(h, now)
  }

  /** The same test in whole milliseconds. */
  function WithinWeek(now: int): Habit -> bool
  {
    (h: Habit) => now - h.createdAt <= 604800000
  }

  /** The number of habits at most a week old. */
  function RecentCount(hs: seq<Habit>, now: int): nat
  {
    Count(hs, IsRecent(now))
  }

  /** Counting by fractional days and counting by milliseconds agree. */
  lemma RecentCountInMs(hs: seq<Habit>, now: int)
    ensures RecentCount(hs, now) == Count(hs, WithinWeek(now))
  {
    forall i | 0 <= i < |hs|
      ensures IsRecent(now)(hs[i]) == WithinWeek(now)(hs[i])
    {
      RecentIsWithinWeek(hs[i], now);
    }
    CountAgree(hs, IsRecent(now), WithinWeek(now));
  }

  function OverloadRule(hs: seq<Habit>, now: int): seq<SmartInsight>
  {
    if RecentCount(hs, now) > 3 then [HabitOverload(now)] else []
  }

  /**
   * Habit overload fires exactly when more than three habits were created at
   * most a week (604800000 ms) before now, whatever the other habits are; so
   * it needs at least four habits, and four habits all created within the
   * week before now always trigger it.
   */
  lemma OverloadRuleFires(hs: seq<Habit>, now: int)
    ensures OverloadRule(hs, now) != [] <==> Count(hs, WithinWeek(now)) > 3
    ensures OverloadRule(hs, now) != [] ==> |hs| >= 4
    ensures |hs| >= 4 && (forall i :: 0 <= i < |hs| ==> 0 <= now - hs[i].createdAt <= 604800000)
            ==> OverloadRule(hs, now) != []
  {
    RecentCountInMs(hs, now);
  }

  // ---------------------------------------------------------------------
  // Streak opportunities
  // ---------------------------------------------------------------------

  /** Day i is unchecked and comes right after a run of at least three checked days. */
  predicate OpportunityAt(w: seq<bool>, i: int)
  {
    0 <= i < |w| && !w[i] && HabitTracker.TrailingRun(w[..i]) >= 3
  }

  /** The run length at the first opportunity from day i on, if there is one. */
  function OpportunityFrom(w: seq<bool>, i: nat): (r: Option<nat>)
    decreases |w| - i
  {
    if i >= |w| then None
    else if OpportunityAt(w, i) then Some(HabitTracker.TrailingRun(w[..i]))
    else OpportunityFrom(w, i + 1)
  }

  /** An opportunity is three checked days immediately followed by an unchecked one. */
  lemma OpportunityAtIff(w: seq<bool>, i: int)
    ensures OpportunityAt(w, i) <==> 3 <= i < |w| && !w[i] && w[i - 3] && w[i - 2] && w[i - 1]
  {
  }

  /**
   * The scan finds an opportunity exactly when one exists, reports the run
   * before the first one, and that run is at least three days long.
   */
  lemma OpportunityFromSpec(w: seq<bool>, i: nat)
    ensures OpportunityFrom(w, i).Some? <==> exists j :: i <= j && OpportunityAt(w, j)
    ensures OpportunityFrom(w, i).Some? ==>
              exists j :: i <= j && OpportunityAt(w, j)
                          && OpportunityFrom(w, i).value == HabitTracker.TrailingRun(w[..j])
                          && OpportunityFrom(w, i).value >= 3
                          && forall k :: i <= k < j ==> !OpportunityAt(w, k)
  {
    OpportunityFromNone(w, i);
    OpportunityFromFirst(w, i);
  }

  /** When the scan finds nothing, there is no opportunity from day i on. */
  lemma {:induction false} OpportunityFromNone(w: seq<bool>, i: nat)
    ensures OpportunityFrom(w, i).None? ==> forall j :: i <= j ==> !OpportunityAt(w, j)
    decreases |w| - i
  {
    if i < |w| && !OpportunityAt(w, i) {
      OpportunityFromNone(w, i + 1);
      assert OpportunityFrom(w, i) == OpportunityFrom(w, i + 1);
    }
  }

  /** When the scan finds a run, it is the run before the first opportunity from day i on. */
  lemma {:induction false} OpportunityFromFirst(w: seq<bool>, i: nat)
    ensures OpportunityFrom(w, i).Some? ==>
              exists j :: i <= j && OpportunityAt(w, j)
                          && OpportunityFrom(w, i).value == HabitTracker.TrailingRun(w[..j])
                          && forall k :: i <= k < j ==> !OpportunityAt(w, k)
    decreases |w| - i
  {
    if i < |w| {
      if OpportunityAt(w, i) {
        assert forall k :: i <= k < i ==> !OpportunityAt(w, k);
      } else {
        OpportunityFromFirst(w, i + 1);
        assert OpportunityFrom(w, i) == OpportunityFrom(w, i + 1);
      }
    }
  }

  /**
   * The streak-opportunity scan: walk the week from monday, counting the
   * current run of checked days; an unchecked day after a run of three or
   * more ends the scan with that run, any other unchecked day restarts it.
   */
  method StreakOpportunity(w: seq<bool>) returns (run: Option<nat>)
    ensures run == OpportunityFrom(w, 0)
  {
    var potential := 0;
    var i := 0;
    while i < |w|
      invariant 0 <= i <= |w|
      invariant potential == HabitTracker.TrailingRun(w[..i])
      invariant OpportunityFrom(w, i) == OpportunityFrom(w, 0)
    {
      assert w[..i + 1][..i] == w[..i];
      if w[i] {
        potential := potential + 1;
      } else if potential >= 3 {
        return Some(potential);
      } else {
        potential := 0;
      }
      i := i + 1;
    }
    return None;
  }

  function StreakRule(h: Habit, now: int): seq<SmartInsight>
  {
    if OpportunityFrom(h.completedDays, 0).Some? then [Opportunity(h, now)] else []
  }

  function StreakRules(hs: seq<Habit>, now: int): seq<SmartInsight>
  {
    if hs == [] then [] else StreakRules(hs[..|hs| - 1], now) + StreakRule(hs[|hs| - 1], now)
  }

  // ---------------------------------------------------------------------
  // The whole engine
  // ---------------------------------------------------------------------

  /** The rules that look at the lists as a whole, in the engine's order. */
  function ListRules(hs: seq<Habit>, ps: seq<Priority>, ts: seq<DailyTask>, now: int): seq<SmartInsight>
  {
    PriorityRule(ps, now) + MorningRule(hs, now) + DayRules(ts, now) + OverloadRule(hs, now)
  }

  /** The insight list: per-habit consistency, the list-wide rules, then per-habit streak opportunities. */
  function Insights(hs: seq<Habit>, ps: seq<Priority>, ts: seq<DailyTask>, now: int): seq<SmartInsight>
  {
    HabitRules(hs, now) + ListRules(hs, ps, ts, now) + StreakRules(hs, now)
  }

  /** The consistency pass over the habits. */
  method HabitPass(hs: seq<Habit>, now: int) returns (out: seq<SmartInsight>)
    ensures out == HabitRules(hs, now)
  {
    out := [];
    for i := 0 to |hs|
      invariant out == HabitRules(hs[..i], now)
    {
      assert hs[..i + 1][..i] == hs[..i];
      var h := hs[i];
      var rate := HabitTracker.HabitProgress(h);
      if rate < 30.0 {
        out := out + [Struggling(h, now)];
      } else if rate > 85.0 {
        out := out + [Success(h, now)];
      }
    }
    assert hs[..|hs|] == hs;
  }

  /** A table with the performance of each day key, in key order, is the day-performance table. */
  lemma PerformanceTable(ts: seq<DailyTask>, perf: seq<DayPerf>)
    requires |perf| == |DayKeys(ts)|
    requires forall i :: 0 <= i < |perf| ==> perf[i] == PerfOf(ts, DayKeys(ts)[i])
    ensures perf == DayPerformance(ts)
  {
  }

  /** A day missing from the tally of completed tasks has no completed task. */
  lemma CompletedLookup(ts: seq<DailyTask>, doneKeys: seq<string>, completedByDay: map<string, nat>, d: string)
    requires doneKeys == DayKeys(Filter(ts, IsDone))
    requires forall e :: e in completedByDay <==> e in doneKeys
    requires forall e :: e in completedByDay ==> completedByDay[e] == DayTally(Filter(ts, IsDone), e)
    ensures (if d in completedByDay then completedByDay[d] else 0) == DayTally(Filter(ts, IsDone), d)
  {
  }

  /**
   * The day-performance pass: tally the tasks and the completed tasks per day,
   * build the table, and judge its best and worst day.
   */
  method DayPass(ts: seq<DailyTask>, now: int) returns (out: seq<SmartInsight>)
    ensures out == DayRules(ts, now)
  {
    var keys, tasksByDay := TallyByDay(ts);
    var doneKeys, completedByDay := TallyByDay(Filter(ts, IsDone));
    var perf := seq(|keys|, i requires 0 <= i < |keys| =>
      var d := keys[i];
      var done := if d in completedByDay then completedByDay[d] else 0;
      CompletedLookup(ts, doneKeys, completedByDay, d);
      FilteredTallyBound(ts, d);
      DayPerf(d, tasksByDay[d], done, Percent(done, tasksByDay[d])));
    forall i | 0 <= i < |keys|
      ensures perf[i] == PerfOf(ts, keys[i])
    {
      CompletedLookup(ts, doneKeys, completedByDay, keys[i]);
    }
    PerformanceTable(ts, perf);
    out := DayRulesOf(perf, now);
  }

  /** The streak-opportunity pass over the habits. */
  method StreakPass(hs: seq<Habit>, now: int) returns (out: seq<SmartInsight>)
    ensures out == StreakRules(hs, now)
  {
    out := [];
    for i := 0 to |hs|
      invariant out == StreakRules(hs[..i], now)
    {
      assert hs[..i + 1][..i] == hs[..i];
      var run := StreakOpportunity(hs[i].completedDays);
      if run.Some? {
        out := out + [Opportunity(hs[i], now)];
      }
    }
    assert hs[..|hs|] == hs;
  }

  /**
   * generateInsights: the consistency pass, the list-wide rules (priority
   * overload, missing morning routine, the day-performance pass, habit
   * overload) and the streak-opportunity pass, collected in that order.
   */
  method GenerateInsights(hs: seq<Habit>, ps: seq<Priority>, ts: seq<DailyTask>, now: int)
    returns (insights: seq<SmartInsight>)
    ensures insights == Insights(hs, ps, ts, now)
  {
    var habitPart := HabitPass(hs, now);
    var dayPart := DayPass(ts, now);
    var streakPart := StreakPass(hs, now);
    insights := habitPart + (PriorityRule(ps, now) + MorningRule(hs, now) + dayPart + OverloadRule(hs, now))
                + streakPart;
  }

  // ---------------------------------------------------------------------
  // Properties of the generated list
  // ---------------------------------------------------------------------

  /** Every generated confidence is between 70 and 90, inside the documented 0..100. */
  lemma ConfidenceBounds(hs: seq<Habit>, ps: seq<Priority>, ts: seq<DailyTask>, now: int)
    ensures forall x :: x in Insights(hs, ps, ts, now) ==> 70 <= x.confidence <= 90 && x.actionable
  {
    HabitRulesConfidence(hs, now);
    ListRulesConfidence(hs, ps, ts, now);
    StreakRulesConfidence(hs, now);
  }

  lemma {:induction false} HabitRulesConfidence(hs: seq<Habit>, now: int)
    ensures forall x :: x in HabitRules(hs, now) ==> 70 <= x.confidence <= 90 && x.actionable
  {
    if hs != [] {
      HabitRulesConfidence(hs[..|hs| - 1], now);
    }
  }

  lemma ListRulesConfidence(hs: seq<Habit>, ps: seq<Priority>, ts: seq<DailyTask>, now: int)
    ensures forall x :: x in ListRules(hs, ps, ts, now) ==> 70 <= x.confidence <= 90 && x.actionable
  {
    SingleRulesConfident(hs, ps, now);
    DayRulesConfident(DayPerformance(ts), now);
    ConfidentParts(PriorityRule(ps, now), MorningRule(hs, now), DayRules(ts, now), OverloadRule(hs, now));
  }

  lemma SingleRulesConfident(hs: seq<Habit>, ps: seq<Priority>, now: int)
    ensures forall x :: x in PriorityRule(ps, now) ==> Confident(x)
    ensures forall x :: x in MorningRule(hs, now) ==> Confident(x)
    ensures forall x :: x in OverloadRule(hs, now) ==> Confident(x)
  {
    SingleRuleParts(hs, ps, now);
    assert Confident(PrioritiesOverload(now)) && Confident(MorningMissing(now)) && Confident(HabitOverload(now));
  }

  lemma DayRulesConfident(perf: seq<DayPerf>, now: int)
    ensures forall x :: x in DayRulesOf(perf, now) ==> Confident(x)
  {
    DayRulesShape(perf, now);
  }

  /** The single-insight rules emit nothing or their one insight. */
  lemma SingleRuleParts(hs: seq<Habit>, ps: seq<Priority>, now: int)
    ensures PriorityRule(ps, now) == [] || PriorityRule(ps, now) == [PrioritiesOverload(now)]
    ensures MorningRule(hs, now) == [] || MorningRule(hs, now) == [MorningMissing(now)]
    ensures OverloadRule(hs, now) == [] || OverloadRule(hs, now) == [HabitOverload(now)]
  {
  }

  predicate Confident(x: SmartInsight)
  {
    70 <= x.confidence <= 90 && x.actionable
  }

  lemma ConfidentConcat(a: seq<SmartInsight>, b: seq<SmartInsight>)
    requires forall x :: x in a ==> Confident(x)
    requires forall x :: x in b ==> Confident(x)
    ensures forall x :: x in a + b ==> Confident(x)
  {
  }

  lemma ConfidentParts(p: seq<SmartInsight>, mo: seq<SmartInsight>, d: seq<SmartInsight>, o: seq<SmartInsight>)
    requires forall x :: x in p ==> Confident(x)
    requires forall x :: x in mo ==> Confident(x)
    requires forall x :: x in d ==> Confident(x)
    requires forall x :: x in o ==> Confident(x)
    ensures forall x :: x in p + mo + d + o ==> Confident(x)
  {
    ConfidentConcat(p, mo);
    ConfidentConcat(p + mo, d);
    ConfidentConcat(p + mo + d, o);
  }

  lemma {:induction false} StreakRulesConfidence(hs: seq<Habit>, now: int)
    ensures forall x :: x in StreakRules(hs, now) ==> 70 <= x.confidence <= 90 && x.actionable
  {
    if hs != [] {
      StreakRulesConfidence(hs[..|hs| - 1], now);
    }
  }

  predicate DistinctHabitIds(hs: seq<Habit>)
  {
    forall i, j :: 0 <= i < j < |hs| ==> hs[i].id != hs[j].id
  }

  predicate DistinctIds(xs: seq<SmartInsight>)
  {
    forall i, j :: 0 <= i < j < |xs| ==> xs[i].id != xs[j].id
  }

  lemma DistinctAppend(a: seq<SmartInsight>, b: seq<SmartInsight>)
    requires DistinctIds(a) && DistinctIds(b)
    requires forall x, y :: x in a && y in b ==> x.id != y.id
    ensures DistinctIds(a + b)
  {
    forall i, j | 0 <= i < j < |a + b|
      ensures (a + b)[i].id != (a + b)[j].id
    {
      if j < |a| {
      } else if i >= |a| {
        assert (a + b)[i] == b[i - |a|] && (a + b)[j] == b[j - |a|];
      } else {
        assert (a + b)[i] in a && (a + b)[j] in b;
      }
    }
  }

  /** An id from the consistency rule names its habit. */
  predicate HabitRuleId(id: string, h: Habit)
  {
    id == StrugglingId(h) || id == SuccessId(h)
  }

  lemma HabitRuleIdInjective(id: string, g: Habit, h: Habit)
    requires HabitRuleId(id, g) && HabitRuleId(id, h)
    ensures g.id == h.id
  {
    assert StrugglingId(g)[7] == StrugglingId(h)[7] == 't';
    assert SuccessId(g)[7] == SuccessId(h)[7] == 'u';
    if id == StrugglingId(g) && id == StrugglingId(h) {
      assert g.id == id[17..] == h.id;
    } else if id == SuccessId(g) && id == SuccessId(h) {
      assert g.id == id[14..] == h.id;
    }
  }

  lemma {:induction false} HabitRulesIds(hs: seq<Habit>, now: int)
    requires DistinctHabitIds(hs)
    ensures DistinctIds(HabitRules(hs, now))
    ensures forall x :: x in HabitRules(hs, now) ==> exists k :: 0 <= k < |hs| && HabitRuleId(x.id, hs[k])
  {
    if hs != [] {
      var init := hs[..|hs| - 1];
      var last := hs[|hs| - 1];
      HabitRulesIds(init, now);
      var a := HabitRules(init, now);
      var b := HabitRule(last, now);
      forall x, y | x in a && y in b
        ensures x.id != y.id
      {
        var k :| 0 <= k < |init| && HabitRuleId(x.id, init[k]);
        if x.id == y.id {
          HabitRuleIdInjective(x.id, init[k], last);
        }
      }
      DistinctAppend(a, b);
      forall x | x in HabitRules(hs, now)
        ensures exists k :: 0 <= k < |hs| && HabitRuleId(x.id, hs[k])
      {
        if x in a {
          var k :| 0 <= k < |init| && HabitRuleId(x.id, init[k]);
          assert HabitRuleId(x.id, hs[k]);
        } else {
          assert HabitRuleId(x.id, hs[|hs| - 1]);
        }
      }
    }
  }

  lemma {:induction false} StreakRulesIds(hs: seq<Habit>, now: int)
    requires DistinctHabitIds(hs)
    ensures DistinctIds(StreakRules(hs, now))
    ensures forall x :: x in StreakRules(hs, now) ==> exists k :: 0 <= k < |hs| && x.id == OpportunityId(hs[k])
  {
    if hs != [] {
      var init := hs[..|hs| - 1];
      var last := hs[|hs| - 1];
      StreakRulesIds(init, now);
      var a := StreakRules(init, now);
      var b := StreakRule(last, now);
      forall x, y | x in a && y in b
        ensures x.id != y.id
      {
        var k :| 0 <= k < |init| && x.id == OpportunityId(init[k]);
        assert hs[k] == init[k];
        assert y.id == OpportunityId(last);
        assert init[k].id == x.id[19..] && last.id == y.id[19..];
      }
      DistinctAppend(a, b);
      forall x | x in StreakRules(hs, now)
        ensures exists k :: 0 <= k < |hs| && x.id == OpportunityId(hs[k])
      {
        if x in a {
          var k :| 0 <= k < |init| && x.id == OpportunityId(init[k]);
          assert x.id == OpportunityId(hs[k]);
        } else {
          assert x.id == OpportunityId(hs[|hs| - 1]);
        }
      }
    }
  }

  /** The ids of the list-wide rules. */
  const FixedIds: seq<string> :=
    ["priorities-overload", "morning-routine-missing", "best-day-insight", "worst-day-insight", "habit-overload"]

  /** The list-wide rules emit at most one insight each, under distinct fixed ids. */
  lemma ListRulesIds(hs: seq<Habit>, ps: seq<Priority>, ts: seq<DailyTask>, now: int)
    ensures DistinctIds(ListRules(hs, ps, ts, now))
    ensures forall x :: x in ListRules(hs, ps, ts, now) ==> x.id in FixedIds
  {
    SingleRulesIds(hs, ps, now);
    DayRulesShape(DayPerformance(ts), now);
    FixedPartsIds(PriorityRule(ps, now), MorningRule(hs, now), DayRules(ts, now), OverloadRule(hs, now));
  }

  lemma SingleRulesIds(hs: seq<Habit>, ps: seq<Priority>, now: int)
    ensures |PriorityRule(ps, now)| <= 1 && forall x :: x in PriorityRule(ps, now) ==> x.id == "priorities-overload"
    ensures |MorningRule(hs, now)| <= 1 && forall x :: x in MorningRule(hs, now) ==> x.id == "morning-routine-missing"
    ensures |OverloadRule(hs, now)| <= 1 && forall x :: x in OverloadRule(hs, now) ==> x.id == "habit-overload"
  {
    PriorityRuleId(ps, now);
    MorningRuleId(hs, now);
    OverloadRuleId(hs, now);
  }

  lemma PriorityRuleId(ps: seq<Priority>, now: int)
    ensures |PriorityRule(ps, now)| <= 1 && forall x :: x in PriorityRule(ps, now) ==> x.id == "priorities-overload"
  {
    if PriorityRule(ps, now) != [] {
      assert PriorityRule(ps, now) == [PrioritiesOverload(now)];
    }
  }

  lemma MorningRuleId(hs: seq<Habit>, now: int)
    ensures |MorningRule(hs, now)| <= 1 && forall x :: x in MorningRule(hs, now) ==> x.id == "morning-routine-missing"
  {
    if MorningRule(hs, now) != [] {
      assert MorningRule(hs, now) == [MorningMissing(now)];
    }
  }

  lemma OverloadRuleId(hs: seq<Habit>, now: int)
    ensures |OverloadRule(hs, now)| <= 1 && forall x :: x in OverloadRule(hs, now) ==> x.id == "habit-overload"
  {
    if OverloadRule(hs, now) != [] {
      assert OverloadRule(hs, now) == [HabitOverload(now)];
    }
  }

  lemma FixedPartsIds(p: seq<SmartInsight>, mo: seq<SmartInsight>, d: seq<SmartInsight>, o: seq<SmartInsight>)
    requires |p| <= 1 && forall x :: x in p ==> x.id == "priorities-overload"
    requires |mo| <= 1 && forall x :: x in mo ==> x.id == "morning-routine-missing"
    requires |d| <= 2 && (|d| == 2 ==> d[0].id == "best-day-insight" && d[1].id == "worst-day-insight")
    requires forall x :: x in d ==> x.id == "best-day-insight" || x.id == "worst-day-insight"
    requires |o| <= 1 && forall x :: x in o ==> x.id == "habit-overload"
    ensures DistinctIds(p + mo + d + o)
    ensures forall x :: x in p + mo + d + o ==> x.id in FixedIds
  {
    DistinctAppend(p, mo);
    DistinctAppend(p + mo, d);
    DistinctAppend(p + mo + d, o);
  }

  lemma FixedIdShape(f: string)
    requires f in FixedIds
    ensures |f| > 6 && f[0] != 's' && (f[0] != 'h' || f[6] != 's')
  {
  }

  /** Ids of the three groups cannot collide: the prefixes and fixed ids differ in their first or seventh character. */
  lemma GroupsDistinct(a: seq<SmartInsight>, m: seq<SmartInsight>, s: seq<SmartInsight>, hs: seq<Habit>)
    requires DistinctIds(a) && DistinctIds(m) && DistinctIds(s)
    requires forall x :: x in a ==> exists k :: 0 <= k < |hs| && HabitRuleId(x.id, hs[k])
    requires forall x :: x in m ==> x.id in FixedIds
    requires forall x :: x in s ==> exists k :: 0 <= k < |hs| && x.id == OpportunityId(hs[k])
    ensures DistinctIds(a + m + s)
  {
    forall x, y | x in a && y in m
      ensures x.id != y.id
    {
      var k :| 0 <= k < |hs| && HabitRuleId(x.id, hs[k]);
      assert x.id[0] == 'h' && x.id[6] == 's';
      FixedIdShape(y.id);
      assert y.id[0] != x.id[0] || y.id[6] != x.id[6];
    }
    DistinctAppend(a, m);
    forall x, y | x in a + m && y in s
      ensures x.id != y.id
    {
      var k :| 0 <= k < |hs| && y.id == OpportunityId(hs[k]);
      assert y.id[0] == 's';
      if x in a {
        var k' :| 0 <= k' < |hs| && HabitRuleId(x.id, hs[k']);
        assert x.id[0] == 'h';
      } else {
        FixedIdShape(x.id);
      }
    }
    DistinctAppend(a + m, s);
  }

  /**
   * When the habits have distinct ids, so do the generated insights: every
   * rule's id is either fixed or its own prefix followed by one habit's id.
   */
  lemma InsightIdsDistinct(hs: seq<Habit>, ps: seq<Priority>, ts: seq<DailyTask>, now: int)
    requires DistinctHabitIds(hs)
    ensures DistinctIds(Insights(hs, ps, ts, now))
  {
    HabitRulesIds(hs, now);
    ListRulesIds(hs, ps, ts, now);
    StreakRulesIds(hs, now);
    GroupsDistinct(HabitRules(hs, now), ListRules(hs, ps, ts, now), StreakRules(hs, now), hs);
  }

  // ---------------------------------------------------------------------
  // The category filter
  // ---------------------------------------------------------------------

  /** The category buttons: every insight, or a single category. */
  datatype Selection = All | Only(category: InsightCategory)

  /** filteredInsights: everything for 'all', otherwise exactly the insights of the selected category, in order. */
  function FilteredInsights(xs: seq<SmartInsight>, selected: Selection): (r: seq<SmartInsight>)
    ensures selected == All ==> r == xs
    ensures selected.Only? ==> forall i :: 0 <= i < |r| ==> r[i] in xs && r[i].category == selected.category
    ensures selected.Only? ==> forall i :: 0 <= i < |xs| && xs[i].category == selected.category ==> xs[i] in r
  {
    var keep := (x: SmartInsight) => selected == All || x.category == selected.category;
    FilterExtremes(xs, keep);
    Filter(xs, keep)
  }

  /** Filtering twice by the same selection changes nothing the second time. */
  lemma FilteredInsightsIdempotent(xs: seq<SmartInsight>, selected: Selection)
    ensures FilteredInsights(FilteredInsights(xs, selected), selected) == FilteredInsights(xs, selected)
  {
    var keep := (x: SmartInsight) => selected == All || x.category == selected.category;
    var r := Filter(xs, keep);
    FilterExtremes(r, keep);
  }
}
