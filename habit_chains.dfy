/**
 * Habit chains: named groups of habits meant to be done together. A chain's
 * day is complete when every habit of the chain was done that day; the
 * component recomputes each chain's completion rate and current streak from
 * the habits, raises an insight for struggling chains, and edits chains and
 * the habits' chain and prerequisite lists.
 *
 * Changes to habits are not made here: the component hands them to its
 * caller as habit updates, which the methods and functions below return.
 */
module HabitChains {
  import opened Types
  import opened Collections
  import Strings
  import HabitTracker

  datatype HabitChain = HabitChain(
    id: string,
    name: string,
    habits: seq<string>,
    completionRate: real,
    currentStreak: nat,
    longestStreak: nat,
    createdAt: int)

  /** A field of one habit to overwrite, as handed to the caller. */
  datatype HabitUpdate =
    | ChainedHabits(habitId: string, ids: seq<string>)
    | PrerequisiteHabits(habitId: string, ids: seq<string>)

  // ---------------------------------------------------------------------
  // Lookups and removals
  // ---------------------------------------------------------------------

  /** `habits.find(h => h.id === id)`: the first habit with that id. */
  function Find(hs: seq<Habit>, id: string): (r: Option<Habit>)
    ensures r.None? <==> forall i :: 0 <= i < |hs| ==> hs[i].id != id
    ensures r.Some? ==> r.value in hs && r.value.id == id
    ensures r.Some? ==> exists i :: 0 <= i < |hs| && hs[i] == r.value && forall j :: 0 <= j < i ==> hs[j].id != id
  {
    if hs == [] then None
    else if hs[0].id == id then Some(hs[0])
    else
      var r := Find(hs[1..], id);
      if r.Some? then
        var i :| 0 <= i < |hs[1..]| && hs[1..][i] == r.value && forall j :: 0 <= j < i ==> hs[1..][j].id != id;
        assert hs[i + 1] == r.value;
        r
      else r
  }

  /** `s.filter(y => y !== x)`: s without any occurrence of x, order kept. */
  function Without(s: seq<string>, x: string): (r: seq<string>)
    ensures x !in r
    ensures forall y :: y in r <==> y in s && y != x
    ensures |r| <= |s|
    ensures x !in s ==> r == s
  {
    if s == [] then []
    else (if s[0] == x then [] else [s[0]]) + Without(s[1..], x)
  }

  /** `s.filter(y => !xs.includes(y))`: s without any element of xs, order kept. */
  function WithoutAll(s: seq<string>, xs: seq<string>): (r: seq<string>)
    ensures forall y :: y in r <==> y in s && y !in xs
    ensures |r| <= |s|
  {
    if s == [] then []
    else (if s[0] in xs then [] else [s[0]]) + WithoutAll(s[1..], xs)
  }

  /** The chains whose id differs from id, order kept. */
  function RemoveChain(cs: seq<HabitChain>, id: string): (r: seq<HabitChain>)
    ensures forall c :: c in r <==> c in cs && c.id != id
    ensures |r| <= |cs|
    ensures (forall i :: 0 <= i < |cs| ==> cs[i].id != id) ==> r == cs
  {
    if cs == [] then []
    else (if cs[0].id == id then [] else [cs[0]]) + RemoveChain(cs[1..], id)
  }

  // ---------------------------------------------------------------------
  // Recomputing a chain from the habits
  // ---------------------------------------------------------------------

  /** The habits that belong to a chain, in habit-list order. */
  function Members(ids: seq<string>, hs: seq<Habit>): seq<Habit>
  {
    Filter(hs, (h: Habit) => h.id in ids)
  }

  /** Every given habit was done on day d (true for no habits at all). */
  predicate AllDone(hs: seq<Habit>, d: nat)
    requires d < 7
  {
    forall i :: 0 <= i < |hs| ==> hs[i].completedDays[d]
  }

  /** The chain's day-by-day completion, monday first. */
  function ChainDays(ids: seq<string>, hs: seq<Habit>): (w: Week)
    ensures forall d :: 0 <= d < 7 ==> (w[d] <==> AllDone(Members(ids, hs), d))
  {
    var members := Members(ids, hs);
    seq(7, d requires 0 <= d < 7 => AllDone(members, d))
  }

  /**
   * A chain day is complete exactly when every current habit listed by the
   * chain was done that day; ids that match no habit are ignored.
   */
  lemma ChainDayIff(ids: seq<string>, hs: seq<Habit>, d: nat)
    requires d < 7
    ensures ChainDays(ids, hs)[d] <==> forall i :: 0 <= i < |hs| && hs[i].id in ids ==> hs[i].completedDays[d]
  {
    var members := Members(ids, hs);
    if !ChainDays(ids, hs)[d] {
      var k :| 0 <= k < |members| && !members[k].completedDays[d];
      assert members[k] in hs;
    }
  }

  /** The rate is the complete days out of seven, as a percentage. */
  function ChainRate(ids: seq<string>, hs: seq<Habit>): (r: real)
    ensures 0.0 <= r <= 100.0
  {
    Percent(CountTrue(ChainDays(ids, hs)), 7)
  }

  /** A chain after a recomputation pass: its rate and its current streak of complete days. */
  function Refreshed(c: HabitChain, hs: seq<Habit>): (r: HabitChain)
    ensures r.id == c.id && r.name == c.name && r.habits == c.habits
    ensures r.longestStreak == c.longestStreak && r.createdAt == c.createdAt
    ensures 0.0 <= r.completionRate <= 100.0 && r.currentStreak <= 7
  {
    var days := ChainDays(c.habits, hs);
    c.(completionRate := ChainRate(c.habits, hs), currentStreak := HabitTracker.TrailingRun(days))
  }

  function RefreshedAll(cs: seq<HabitChain>, hs: seq<Habit>): (r: seq<HabitChain>)
    ensures |r| == |cs|
    ensures forall i :: 0 <= i < |cs| ==> r[i] == Refreshed(cs[i], hs)
  {
    Map(cs, (c: HabitChain) => Refreshed(c, hs))
  }

  /**
   * A chain none of whose ids names a current habit is complete every day:
   * its rate is 100 and its streak 7.
   */
  lemma UnmatchedChainComplete(c: HabitChain, hs: seq<Habit>)
    requires forall i :: 0 <= i < |hs| ==> hs[i].id !in c.habits
    ensures Refreshed(c, hs).completionRate == 100.0
    ensures Refreshed(c, hs).currentStreak == 7
  {
    FilterExtremes(hs, (h: Habit) => h.id in c.habits);
    var days := ChainDays(c.habits, hs);
    assert forall d :: 0 <= d < 7 ==> days[d];
    HabitTracker.StreakExtremes(days);
  }

  /**
   * The current streak counts complete days back from sunday: it is 7 exactly
   * when every day is complete and 0 exactly when sunday is not.
   */
  lemma StreakOfRefreshed(c: HabitChain, hs: seq<Habit>)
    ensures var days := ChainDays(c.habits, hs);
            (Refreshed(c, hs).currentStreak == 7 <==> forall d :: 0 <= d < 7 ==> days[d])
            && (Refreshed(c, hs).currentStreak == 0 <==> !days[Sunday])
            && Refreshed(c, hs).currentStreak <= CountTrue(days)
  {
    var days := ChainDays(c.habits, hs);
    HabitTracker.StreakExtremes(days);
    HabitTracker.StreakBounds(days);
  }

  /** The insight raised for a struggling chain. */
  function ChainStruggling(c: HabitChain, now: int): SmartInsight
  {
    SmartInsight("chain-struggling-" + c.id, HabitInsight, "Chain \"" + c.name + "\" needs attention",
                 true, Some("Review chain structure"), 85, now, None, Performance)
  }

  /** A chain under 50% that lists more than one habit is struggling. */
  predicate Struggles(c: HabitChain)
  {
    c.completionRate < 50.0 && |c.habits| > 1
  }

  function StrugglingInsights(cs: seq<HabitChain>, now: int): (r: seq<SmartInsight>)
    ensures |r| <= |cs|
  {
    if cs == [] then []
    else StrugglingInsights(cs[..|cs| - 1], now)
         + (if Struggles(cs[|cs| - 1]) then [ChainStruggling(cs[|cs| - 1], now)] else [])
  }

  /** After recomputation a chain struggles exactly when at most three days are complete and it lists two habits or more. */
  lemma StrugglingIff(c: HabitChain, hs: seq<Habit>)
    ensures Struggles(Refreshed(c, hs)) <==> CountTrue(ChainDays(c.habits, hs)) <= 3 && |c.habits| > 1
  {
    PercentCompare(CountTrue(ChainDays(c.habits, hs)), 7, 50.0);
  }

  /** The insights name exactly the struggling chains, in chain order. */
  lemma {:induction false} StrugglingInsightsExact(cs: seq<HabitChain>, now: int)
    ensures forall x :: x in StrugglingInsights(cs, now) <==>
              exists i :: 0 <= i < |cs| && Struggles(cs[i]) && x == ChainStruggling(cs[i], now)
  {
    if cs != [] {
      var init := cs[..|cs| - 1];
      StrugglingInsightsExact(init, now);
      forall x
        ensures x in StrugglingInsights(cs, now) <==>
                exists i :: 0 <= i < |cs| && Struggles(cs[i]) && x == ChainStruggling(cs[i], now)
      {
        if exists i :: 0 <= i < |cs| && Struggles(cs[i]) && x == ChainStruggling(cs[i], now) {
          var i :| 0 <= i < |cs| && Struggles(cs[i]) && x == ChainStruggling(cs[i], now);
          if i < |cs| - 1 {
            assert init[i] == cs[i];
          }
        }
        if x in StrugglingInsights(init, now) {
          var i :| 0 <= i < |init| && Struggles(init[i]) && x == ChainStruggling(init[i], now);
          assert cs[i] == init[i];
        }
      }
    }
  }

  // ---------------------------------------------------------------------
  // Updates handed to the caller
  // ---------------------------------------------------------------------

  /** The chain links createChain hands out: each selected habit that exists gets every other selected id appended. */
  function LinkUpdates(ids: seq<string>, selected: seq<string>, hs: seq<Habit>): (r: seq<HabitUpdate>)
    ensures |r| <= |ids|
  {
    if ids == [] then []
    else
      var id := ids[|ids| - 1];
      var f := Find(hs, id);
      LinkUpdates(ids[..|ids| - 1], selected, hs)
      + (if f.Some? then [ChainedHabits(id, f.value.chainedHabits + Without(selected, id))] else [])
  }

  /** The link loop of createChain: walk the selection and hand out each existing habit's extended chain list. */
  method ChainLinks(selected: seq<string>, hs: seq<Habit>) returns (updates: seq<HabitUpdate>)
    ensures updates == LinkUpdates(selected, selected, hs)
  {
    updates := [];
    for i := 0 to |selected|
      invariant updates == LinkUpdates(selected[..i], selected, hs)
    {
      assert selected[..i + 1][..i] == selected[..i];
      var habitId := selected[i];
      var habit := Find(hs, habitId);
      if habit.Some? {
        updates := updates + [ChainedHabits(habitId, habit.value.chainedHabits + Without(selected, habitId))];
      }
    }
    assert selected[..|selected|] == selected;
  }

  /**
   * Every link update belongs to a selected, existing habit, keeps that
   * habit's chain list as a prefix and appends only other selected ids,
   * never the habit's own.
   */
  lemma {:induction false} LinkUpdatesShape(ids: seq<string>, selected: seq<string>, hs: seq<Habit>)
    ensures forall u :: u in LinkUpdates(ids, selected, hs) ==>
              u.ChainedHabits? && u.habitId in ids && Find(hs, u.habitId).Some?
              && var prev := Find(hs, u.habitId).value.chainedHabits;
                 prev <= u.ids
                 && u.habitId !in u.ids[|prev|..]
                 && forall y :: y in u.ids[|prev|..] <==> y in selected && y != u.habitId
  {
    if ids != [] {
      LinkUpdatesShape(ids[..|ids| - 1], selected, hs);
    }
  }

  /** The chain-list updates deleteChain hands out: each listed, existing habit loses every id of the chain. */
  function UnlinkUpdates(ids: seq<string>, chainIds: seq<string>, hs: seq<Habit>): (r: seq<HabitUpdate>)
    ensures |r| <= |ids|
  {
    if ids == [] then []
    else
      var id := ids[|ids| - 1];
      var f := Find(hs, id);
      UnlinkUpdates(ids[..|ids| - 1], chainIds, hs)
      + (if f.Some? then [ChainedHabits(id, WithoutAll(f.value.chainedHabits, chainIds))] else [])
  }

  /** After an unlink update, the habit's chain list mentions no habit of the deleted chain. */
  lemma {:induction false} UnlinkUpdatesShape(ids: seq<string>, chainIds: seq<string>, hs: seq<Habit>)
    ensures forall u :: u in UnlinkUpdates(ids, chainIds, hs) ==>
              u.ChainedHabits? && u.habitId in ids && Find(hs, u.habitId).Some?
              && forall y :: y in u.ids <==> y in Find(hs, u.habitId).value.chainedHabits && y !in chainIds
  {
    if ids != [] {
      UnlinkUpdatesShape(ids[..|ids| - 1], chainIds, hs);
    }
  }

  /** The first chain with the given id, if any. */
  function FindChain(cs: seq<HabitChain>, id: string): (r: Option<HabitChain>)
    ensures r.None? <==> forall i :: 0 <= i < |cs| ==> cs[i].id != id
    ensures r.Some? ==> r.value in cs && r.value.id == id
  {
    if cs == [] then None
    else if cs[0].id == id then Some(cs[0])
    else FindChain(cs[1..], id)
  }

  /**
   * addPrerequisite: an existing habit that does not yet list the
   * prerequisite gets it appended; otherwise nothing is handed out.
   */
  function AddPrerequisite(hs: seq<Habit>, habitId: string, prerequisiteId: string): (r: Option<HabitUpdate>)
    ensures r.Some? <==> Find(hs, habitId).Some? && prerequisiteId !in Find(hs, habitId).value.prerequisiteHabits
    ensures r.Some? ==> r.value == PrerequisiteHabits(habitId, Find(hs, habitId).value.prerequisiteHabits + [prerequisiteId])
  {
    var f := Find(hs, habitId);
    if f.Some? && prerequisiteId !in f.value.prerequisiteHabits then
      Some(PrerequisiteHabits(habitId, f.value.prerequisiteHabits + [prerequisiteId]))
    else None
  }

  /** removePrerequisite: an existing habit gets its prerequisite list without that id. */
  function RemovePrerequisite(hs: seq<Habit>, habitId: string, prerequisiteId: string): (r: Option<HabitUpdate>)
    ensures r.Some? <==> Find(hs, habitId).Some?
    ensures r.Some? ==> r.value.PrerequisiteHabits? && r.value.habitId == habitId
                        && prerequisiteId !in r.value.ids
                        && forall y :: y in r.value.ids <==> y in Find(hs, habitId).value.prerequisiteHabits && y != prerequisiteId
  {
    var f := Find(hs, habitId);
    if f.Some? then Some(PrerequisiteHabits(habitId, Without(f.value.prerequisiteHabits, prerequisiteId))) else None
  }

  /** The habit store applying a prerequisite update to every habit with that id. */
  function ApplyPrerequisites(hs: seq<Habit>, habitId: string, ids: seq<string>): (r: seq<Habit>)
    ensures |r| == |hs|
    ensures forall i :: 0 <= i < |hs| ==>
              r[i] == if hs[i].id == habitId then hs[i].(prerequisiteHabits := ids) else hs[i]
  {
    if hs == [] then []
    else [if hs[0].id == habitId then hs[0].(prerequisiteHabits := ids) else hs[0]]
         + ApplyPrerequisites(hs[1..], habitId, ids)
  }

  /**
   * addPrerequisite never introduces a duplicate: the list it hands out is
   * duplicate-free when the old one was, and once applied a second call with
   * the same arguments hands out nothing.
   */
  lemma AddPrerequisiteNoDuplicate(hs: seq<Habit>, habitId: string, prerequisiteId: string)
    ensures var r := AddPrerequisite(hs, habitId, prerequisiteId);
            r.Some? ==> var prev := Find(hs, habitId).value.prerequisiteHabits;
                        (NoDuplicates(prev) ==> NoDuplicates(r.value.ids))
                        && AddPrerequisite(ApplyPrerequisites(hs, habitId, r.value.ids), habitId, prerequisiteId).None?
  {
    var r := AddPrerequisite(hs, habitId, prerequisiteId);
    if r.Some? {
      FindApplied(hs, habitId, r.value.ids);
      AppendNoDuplicates(Find(hs, habitId).value.prerequisiteHabits, prerequisiteId);
    }
  }

  /** After the update, the habit found under the id is the old one with the new prerequisite list. */
  lemma {:induction false} FindApplied(hs: seq<Habit>, habitId: string, ids: seq<string>)
    ensures Find(ApplyPrerequisites(hs, habitId, ids), habitId)
            == if Find(hs, habitId).Some? then Some(Find(hs, habitId).value.(prerequisiteHabits := ids)) else None
  {
    if hs != [] && hs[0].id != habitId {
      FindApplied(hs[1..], habitId, ids);
      var a := ApplyPrerequisites(hs, habitId, ids);
      assert a[1..] == ApplyPrerequisites(hs[1..], habitId, ids);
    }
  }

  lemma AppendNoDuplicates(s: seq<string>, x: string)
    requires x !in s
    ensures NoDuplicates(s) ==> NoDuplicates(s + [x])
  {
  }

  predicate NoDuplicates(s: seq<string>)
  {
    forall i, j :: 0 <= i < j < |s| ==> s[i] != s[j]
  }

  // ---------------------------------------------------------------------
  // The chains state
  // ---------------------------------------------------------------------

  /** The mean of the chains' completion rates; 0 with no chains. */
  function SuccessRate(cs: seq<HabitChain>): real
  {
    if cs == [] then 0.0 else RateSum(cs) / |cs| as real
  }

  function RateSum(cs: seq<HabitChain>): real
  {
    if cs == [] then 0.0 else RateSum(cs[..|cs| - 1]) + cs[|cs| - 1].completionRate
  }

  predicate RatesInRange(cs: seq<HabitChain>)
  {
    forall i :: 0 <= i < |cs| ==> 0.0 <= cs[i].completionRate <= 100.0
  }

  lemma {:induction false} RateSumBounds(cs: seq<HabitChain>)
    requires RatesInRange(cs)
    ensures 0.0 <= RateSum(cs) <= 100.0 * |cs| as real
  {
    if cs != [] {
      RateSumBounds(cs[..|cs| - 1]);
    }
  }

  /** With every rate a percentage, the mean is a percentage too, and it is 100 when every chain is. */
  lemma SuccessRateBounds(cs: seq<HabitChain>)
    requires RatesInRange(cs)
    ensures 0.0 <= SuccessRate(cs) <= 100.0
    ensures cs == [] ==> SuccessRate(cs) == 0.0
    ensures cs != [] ==> SuccessRate(cs) * |cs| as real == RateSum(cs)
  {
    RateSumBounds(cs);
    if cs != [] {
      MeanBounds(RateSum(cs), |cs|);
    }
  }

  lemma MeanBounds(sum: real, n: nat)
    requires n > 0 && 0.0 <= sum <= 100.0 * n as real
    ensures 0.0 <= sum / n as real <= 100.0
    ensures sum / n as real * n as real == sum
  {
  }

  /** The recomputation loop: each chain's daily completions, rate and current streak. */
  method RefreshChains(cs: seq<HabitChain>, hs: seq<Habit>) returns (updated: seq<HabitChain>)
    ensures updated == RefreshedAll(cs, hs)
  {
    updated := [];
    for i := 0 to |cs|
      invariant updated == RefreshedAll(cs[..i], hs)
    {
      MapSnoc(cs, i, (c: HabitChain) => Refreshed(c, hs));
      var chain := cs[i];
      var dailyCompletions := ChainDays(chain.habits, hs);
      var completionRate := Percent(CountTrue(dailyCompletions), 7);
      var currentStreak := HabitTracker.GetStreak(dailyCompletions);
      var next := chain.(completionRate := completionRate, currentStreak := currentStreak);
      assert next == Refreshed(cs[i], hs);
      updated := updated + [next];
    }
    assert cs[..|cs|] == cs;
  }

  /** The struggling-chain pass over the recomputed chains. */
  method StrugglingPass(cs: seq<HabitChain>, now: int) returns (insights: seq<SmartInsight>)
    ensures insights == StrugglingInsights(cs, now)
  {
    insights := [];
    for i := 0 to |cs|
      invariant insights == StrugglingInsights(cs[..i], now)
    {
      assert cs[..i + 1][..i] == cs[..i];
      if cs[i].completionRate < 50.0 && |cs[i].habits| > 1 {
        insights := insights + [ChainStruggling(cs[i], now)];
      }
    }
    assert cs[..|cs|] == cs;
  }

  /** The chains panel: its chains and the chain-creation form. */
  class ChainsPanel {
    var chains: seq<HabitChain>
    var newChainName: string
    var selectedHabits: seq<string>
    var isCreatingChain: bool

    /** Every chain's rate is a percentage and its streak at most a week. */
    predicate Valid()
      reads this
    {
      forall i :: 0 <= i < |chains| ==> 0.0 <= chains[i].completionRate <= 100.0 && chains[i].currentStreak <= 7
    }

    constructor ()
      ensures chains == [] && newChainName == [] && selectedHabits == [] && !isCreatingChain
      ensures Valid()
    {
      chains := [];
      newChainName := [];
      selectedHabits := [];
      isCreatingChain := false;
    }

    /**
     * One recomputation pass: every chain gets its rate and current streak
     * recomputed from the habits, and an insight is raised for each chain
     * that then struggles.
     */
    method Recompute(hs: seq<Habit>, now: int) returns (insights: seq<SmartInsight>)
      modifies this
      ensures chains == RefreshedAll(old(chains), hs)
      ensures insights == StrugglingInsights(chains, now)
      ensures newChainName == old(newChainName) && selectedHabits == old(selectedHabits)
      ensures isCreatingChain == old(isCreatingChain)
      ensures Valid()
    {
      var updated := RefreshChains(chains, hs);
      chains := updated;
      insights := StrugglingPass(updated, now);
    }

    /**
     * createChain: with a name that is not blank and at least two selected
     * habits, append a new chain with the trimmed name, zeroed figures and
     * the current time as its id, hand out the chain links for the selected
     * habits, and reset the form; otherwise change nothing.
     */
    method CreateChain(hs: seq<Habit>, now: nat) returns (updates: seq<HabitUpdate>)
      requires Valid()
      modifies this
      ensures var name := Strings.Trim(old(newChainName));
              if name != [] && |old(selectedHabits)| >= 2 then
                chains == old(chains) + [HabitChain(Strings.NatToString(now), name, old(selectedHabits), 0.0, 0, 0, now)]
                && updates == LinkUpdates(old(selectedHabits), old(selectedHabits), hs)
                && newChainName == [] && selectedHabits == [] && !isCreatingChain
              else
                chains == old(chains) && updates == []
                && newChainName == old(newChainName) && selectedHabits == old(selectedHabits)
                && isCreatingChain == old(isCreatingChain)
      ensures Valid()
    {
      updates := [];
      var name := Strings.Trim(newChainName);
      if name != [] && |selectedHabits| >= 2 {
        var selected := selectedHabits;
        chains := chains + [HabitChain(Strings.NatToString(now), name, selected, 0.0, 0, 0, now)];
        updates := ChainLinks(selected, hs);
        newChainName := [];
        selectedHabits := [];
        isCreatingChain := false;
      }
    }

    /**
     * deleteChain: remove every chain with the id; if one existed, hand out
     * for each of its habits that exists a chain list without the chain's
     * habits.
     */
    method DeleteChain(chainId: string, hs: seq<Habit>) returns (updates: seq<HabitUpdate>)
      requires Valid()
      modifies this
      ensures chains == RemoveChain(old(chains), chainId)
      ensures var c := FindChain(old(chains), chainId);
              updates == if c.Some? then UnlinkUpdates(c.value.habits, c.value.habits, hs) else []
      ensures newChainName == old(newChainName) && selectedHabits == old(selectedHabits)
      ensures isCreatingChain == old(isCreatingChain)
      ensures Valid()
    {
      updates := [];
      var chain := FindChain(chains, chainId);
      if chain.Some? {
        var ids := chain.value.habits;
        for i := 0 to |ids|
          invariant updates == UnlinkUpdates(ids[..i], ids, hs)
        {
          assert ids[..i + 1][..i] == ids[..i];
          var habit := Find(hs, ids[i]);
          if habit.Some? {
            updates := updates + [ChainedHabits(ids[i], WithoutAll(habit.value.chainedHabits, ids))];
          }
        }
        assert ids[..|ids|] == ids;
      }
      chains := RemoveChain(chains, chainId);
    }

    /** getChainSuccessRate: the mean completion rate of the chains, 0 with none. */
    function GetChainSuccessRate(): (r: real)
      requires Valid()
      reads this
      ensures 0.0 <= r <= 100.0
      ensures chains == [] ==> r == 0.0
      ensures chains != [] ==> r * |chains| as real == RateSum(chains)
    {
      SuccessRateBounds(chains);
      SuccessRate(chains)
    }
  }
}
