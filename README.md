# RoutineOS core, modelled in Dafny

RoutineOS is a personal productivity dashboard. It tracks three collections:
weekly priorities, habits (each with a seven-day completion map) and daily tasks.
On top of these it computes weekly statistics, derives advisory "insights",
manages habit chains and suggests times of day for work. It also exports the
data to a spreadsheet and runs a service worker that caches responses and
queues mutations made while offline.

This project models that logic in Dafny and proves what the code promises:

- the completion rates and their bounds;
- the frame of every add, toggle and delete;
- the first-match keyword rules and threshold rules;
- the swipe-gesture state machine;
- the spreadsheet row layout and the sheet-id round trip;
- the URL builders and domain validation;
- the routing and retry queue of the service worker;
- the status-code cascades of the habits and priorities API routes.

Modules follow the source files:

| module | models |
|---|---|
| `Types` | `src/types/index.ts` (records; a weekday map is a `seq<bool>` of length 7, monday first) |
| `Strings`, `Collections` | shared helpers: `trim`, `toLowerCase` (ASCII letters), `includes`, `startsWith`, `filter`, counting |
| `DashboardData` | `src/hooks/useDashboardData.ts` (the `DashboardStore` class owns the three lists) |
| `HabitTracker` | `src/components/dashboard/HabitTracker.tsx` |
| `WeeklyPriorities` | `src/components/dashboard/WeeklyPriorities.tsx` |
| `DailyTasks` | `src/components/dashboard/DailyTasks.tsx` |
| `Insights` | `src/components/smart/AIInsightsEngine.tsx` |
| `HabitChains` | `src/components/smart/SmartHabitChains.tsx` (the `ChainsPanel` class) |
| `Scheduler` | `src/components/smart/SmartScheduler.tsx` (the `SchedulerPanel` class) |
| `Swipe` | `src/components/mobile/SwipeableCard.tsx` (the `SwipeCard` class) |
| `SheetsSync` | `src/app/api/sheets/sync/route.ts` |
| `SheetLink` | `src/components/integrations/GoogleSheetsSync.tsx` |
| `DomainConfig` | `src/lib/domain-config.ts` |
| `ServiceWorker` | `public/sw.js` (the `Worker` class owns the caches and the failed-request queue) |
| `ApiRoutes` | `src/app/api/habits/route.ts`, `src/app/api/priorities/route.ts` (the `Store` class is the database) |

Inputs from outside the program become parameters:

- the clock: `now`, in milliseconds;
- `Math.random() > 0.5` in the scheduler: `draw(i)` for the habit at position i;
- `toLocaleDateString`: `dateText`;
- the network's answer: `net`;
- the outcome of each replayed request: `ok(i)`;
- whether each database or spreadsheet call succeeds: `Faults`, `clearOk`, `updateOk`, `SheetRead`;
- the session: `hasSession`, or the signed-in email as an `Option`;
- the environment variables: the fields of `DomainConfig.Env`.

The scheduler's explanation strings are the `Reason` tags of `Scheduler`; `ReasonText` gives each tag its exact text. Percentages are `real`, so they are exact. React state setters are modelled as immediate assignments. Callbacks handed to a parent (`onAdd`, `onSync`, `onUpdateHabit`, `onCreateInsight`, a swipe action) are modelled as returned values, or as a log field.

## Model

| member | source | states |
|---|---|---|
| DashboardData.DashboardStore.constructor | src/hooks/useDashboardData.ts:5-8 | The hook starts from the three stored lists |
| DashboardData.DashboardStore.AddPriority | src/hooks/useDashboardData.ts:11-19 | Appends exactly one new priority at the end; the other two lists are unchanged |
| DashboardData.DashboardStore.TogglePriority | src/hooks/useDashboardData.ts:21-29 | The list becomes TogglePriorityIn of the old list; the other lists are unchanged |
| DashboardData.DashboardStore.DeletePriority | src/hooks/useDashboardData.ts:31-33 | The list becomes the old list filtered to ids other than the given one; the other lists are unchanged |
| DashboardData.DashboardStore.AddHabit | src/hooks/useDashboardData.ts:36-52 | Appends exactly one new habit at the end; the other lists are unchanged |
| DashboardData.DashboardStore.ToggleHabitDay | src/hooks/useDashboardData.ts:54-68 | The habits become ToggleHabitDayIn at the weekday's index; the other lists are unchanged |
| DashboardData.DashboardStore.DeleteHabit | src/hooks/useDashboardData.ts:70-72 | Removes every habit with the id and keeps the rest in order |
| DashboardData.DashboardStore.AddDailyTask | src/hooks/useDashboardData.ts:75-84 | Appends exactly one new task at the end, filed under the given day |
| DashboardData.DashboardStore.ToggleDailyTask | src/hooks/useDashboardData.ts:86-94 | The tasks become ToggleTaskIn of the old tasks; the other lists are unchanged |
| DashboardData.DashboardStore.DeleteDailyTask | src/hooks/useDashboardData.ts:96-98 | Removes every task with the id and keeps the rest in order |
| DashboardData.DashboardStore.GetWeeklyStats | src/hooks/useDashboardData.ts:101-135 | The totals are the lengths of the three lists held; the score is the mean of the three rates, in [0,100]; habit consistency is the mean habit progress, which equals the pooled share of checked days |
| DashboardData.TogglePriorityIn | src/hooks/useDashboardData.ts:21-29 | Same length; `completed` is flipped on exactly the items with the id; every other item is unchanged |
| DashboardData.ToggleTaskIn | src/hooks/useDashboardData.ts:86-94 | Same length; `completed` is flipped on exactly the items with the id; every other item is unchanged |
| DashboardData.ToggleHabitDayIn | src/hooks/useDashboardData.ts:54-68 | Same length; matching habits get only that weekday flipped; other habits are unchanged |
| DashboardData.DayIndex | src/hooks/useDashboardData.ts:62 | The index of a weekday key in the monday-first week |
| DashboardData.TogglePriorityTwice | src/hooks/useDashboardData.ts:21-29 | Toggling the same id twice restores the list |
| DashboardData.ToggleTaskTwice | src/hooks/useDashboardData.ts:86-94 | Toggling the same id twice restores the list |
| DashboardData.ToggleHabitDayTwice | src/hooks/useDashboardData.ts:54-68 | Toggling the same habit day twice restores the list |
| DashboardData.UnknownPriorityId | src/hooks/useDashboardData.ts:21-33 | An id no item carries makes toggle and delete no-ops |
| DashboardData.DeletePriorityEffect | src/hooks/useDashboardData.ts:31-33 | After a delete no item has the id, every other item remains, and the length drops by the number of matches |
| DashboardData.NewRecordsStartEmpty | src/hooks/useDashboardData.ts:11-19 | New habits have no day checked; new priorities and tasks are uncompleted; a task keeps its day |
| DashboardData.WeeklyStatsOf | src/hooks/useDashboardData.ts:101-122 | Totals are the list lengths; completed counts are at most the totals; every rate and the score is in [0,100]; a rate is 0 for an empty list; the score is the mean of the three rates; habit consistency is the mean habit progress and equals the pooled share of checked days |
| DashboardData.RatesAreRatios | src/hooks/useDashboardData.ts:102-120 | For a non-empty list each rate is completed / total * 100, where completed is the length of the filtered list |
| DashboardData.HabitConsistencyIsPooled | src/hooks/useDashboardData.ts:108-114 | The mean of the per-habit percentages equals all checked days over 7 times the number of habits, times 100 |
| DashboardData.OverallScoreExtremes | src/hooks/useDashboardData.ts:122 | The score is 100 iff all three rates are 100, and 0 iff all three are 0 |
| DashboardData.EmptyStats | src/hooks/useDashboardData.ts:101-122 | With nothing tracked every figure is 0 |
| DashboardData.AddPriorityStats | src/hooks/useDashboardData.ts:11-19 | Adding a priority raises the total by one and leaves the completed count unchanged |
| DashboardData.ToggleUniquePriorityCount | src/hooks/useDashboardData.ts:21-29 | Toggling a priority with a unique id changes the completed count by exactly one, in the right direction |
| HabitTracker.HabitProgress | src/components/dashboard/HabitTracker.tsx:30-33 | In [0,100]; 0 iff no day is checked; 100 iff every day is checked |
| HabitTracker.TrailingRun | src/components/dashboard/HabitTracker.tsx:35-45 | The run of checked days that ends the week: all are checked, and the day before them is not |
| HabitTracker.GetStreak | src/components/dashboard/HabitTracker.tsx:35-45 | The backward loop with its early exit returns exactly the trailing run of checked days |
| HabitTracker.StreakBounds | src/components/dashboard/HabitTracker.tsx:35-45 | The streak never exceeds the number of checked days, which never exceeds 7 |
| HabitTracker.StreakExtremes | src/components/dashboard/HabitTracker.tsx:37-44 | The streak is 7 iff all days are checked, and 0 iff sunday is unchecked |
| HabitTracker.HandleSubmit | src/components/dashboard/HabitTracker.tsx:21-28 | onAdd is called iff the name has a non-whitespace character, and it receives the trimmed, non-empty name |
| WeeklyPriorities.CompletedCount | src/components/dashboard/WeeklyPriorities.tsx:27 | The number of completed priorities: the length of the filtered list, and at most the list length |
| WeeklyPriorities.CompletionRate | src/components/dashboard/WeeklyPriorities.tsx:28 | In [0,100]; 0 for an empty list; 100 iff the list is non-empty and all are completed; 0 iff none are completed |
| WeeklyPriorities.CardRateMatchesStats | src/components/dashboard/WeeklyPriorities.tsx:27-28 | The card's count and rate equal the weekly statistics' count and rate |
| WeeklyPriorities.HandleSubmit | src/components/dashboard/WeeklyPriorities.tsx:18-25 | onAdd is called iff the text has a non-whitespace character, and it receives the trimmed text |
| DailyTasks.GetTasksByDay | src/components/dashboard/DailyTasks.tsx:39-41 | Exactly the tasks whose day equals the key: every result has that day, and every such task is present |
| DailyTasks.GetTotalStats | src/components/dashboard/DailyTasks.tsx:43-47 | Total is the list length; completed is at most the total; the percentage is 0 with no tasks, otherwise completed / total * 100 |
| DailyTasks.DayCompletionRate | src/components/dashboard/DailyTasks.tsx:132-134 | In [0,100]; 0 for an empty column; 100 iff the column is non-empty and all its tasks are completed |
| DailyTasks.ColumnsPartitionTasks | src/components/dashboard/DailyTasks.tsx:14-22 | The seven columns plus the tasks filed under no weekday key add up to every task |
| DailyTasks.OffKeyTaskHidden | src/components/dashboard/DailyTasks.tsx:14-22 | A task whose day is not a weekday key appears in no column |
| DailyTasks.HandleSubmit | src/components/dashboard/DailyTasks.tsx:29-37 | onAdd is called iff the text has a non-whitespace character and a day is selected; it receives the day and the trimmed text |
| Insights.HabitRuleThresholds | src/components/smart/AIInsightsEngine.tsx:27-56 | Struggling iff at most 2 days are checked; success iff at least 6; neither iff 3 to 5; never both |
| Insights.PriorityRuleFires | src/components/smart/AIInsightsEngine.tsx:59-75 | The overload insight is emitted iff there are priorities and fewer than half are completed |
| Insights.MorningRuleFires | src/components/smart/AIInsightsEngine.tsx:78-93 | The morning insight is emitted iff there are habits and none lists "morning" |
| Insights.TallyByDay | src/components/smart/AIInsightsEngine.tsx:96-104 | The accumulator loop yields the day keys in first-occurrence order, each with its task count |
| Insights.PerformanceCoversTaskDays | src/components/smart/AIInsightsEngine.tsx:107-112 | The table holds exactly the days with at least one task; each rate is completed / total * 100 |
| Insights.BestIndex | src/components/smart/AIInsightsEngine.tsx:112-115 | The head of the stable descending sort: a maximal rate, with every earlier entry strictly lower |
| Insights.WorstIndex | src/components/smart/AIInsightsEngine.tsx:112-116 | The tail of the stable descending sort: a minimal rate, with every later entry strictly higher |
| Insights.DayRulesShape | src/components/smart/AIInsightsEngine.tsx:114-145 | At most two insights: the best-day one (85), then the worst-day one (75) |
| Insights.BestDayFires | src/components/smart/AIInsightsEngine.tsx:118-130 | The power-day insight is emitted iff some day's rate exceeds 80 |
| Insights.WorstDayFires | src/components/smart/AIInsightsEngine.tsx:132-144 | The needs-optimization insight is emitted iff the worst day has more than one task and fewer than 2 in 5 of them are done |
| Insights.RecentIsWithinWeek | src/components/smart/AIInsightsEngine.tsx:148-151 | "At most 7 fractional days ago" is "at most 604800000 ms ago" |
| Insights.RecentCountInMs | src/components/smart/AIInsightsEngine.tsx:148-151 | The recent-habit count is the number of habits created at most 604800000 ms before now |
| Insights.OverloadRuleFires | src/components/smart/AIInsightsEngine.tsx:148-165 | Habit overload fires iff more than three habits were created at most 604800000 ms before now; it needs at least four habits; four or more habits created within the week always trigger it |
| Insights.OpportunityFromSpec | src/components/smart/AIInsightsEngine.tsx:168-193 | The scan finds an opportunity iff a run of three or more checked days is followed by an unchecked one; it reports the run before the first such day |
| Insights.StreakOpportunity | src/components/smart/AIInsightsEngine.tsx:170-192 | The index loop with its counter reset and early exit computes exactly that scan |
| Insights.HabitPass | src/components/smart/AIInsightsEngine.tsx:27-56 | The forEach over the habits emits, in habit order, exactly the per-habit consistency insights |
| Insights.DayPass | src/components/smart/AIInsightsEngine.tsx:96-145 | Tallying all tasks and the completed tasks per day, building the table and judging it yields exactly the day-performance insights |
| Insights.StreakPass | src/components/smart/AIInsightsEngine.tsx:168-193 | The forEach over the habits emits an opportunity for exactly the habits whose scan finds one, in habit order |
| Insights.GenerateInsights | src/components/smart/AIInsightsEngine.tsx:23-196 | The pushing loops produce exactly the insight list: habit rules, list-wide rules, then streak opportunities |
| Insights.ConfidenceBounds | src/components/smart/AIInsightsEngine.tsx:23-196 | Every insight emitted is actionable, with confidence in [70,90], inside the documented 0-100 |
| Insights.InsightIdsDistinct | src/components/smart/AIInsightsEngine.tsx:32-178 | With distinct habit ids, the generated insight ids are pairwise distinct |
| Insights.FilteredInsights | src/components/smart/AIInsightsEngine.tsx:207-209 | Everything for 'all'; otherwise exactly the insights of the chosen category |
| Insights.FilteredInsightsIdempotent | src/components/smart/AIInsightsEngine.tsx:207-209 | Filtering twice by the same selection equals filtering once |
| HabitChains.Find | src/components/smart/SmartHabitChains.tsx:94 | The first habit with the id, or None iff none has it |
| HabitChains.ChainDays | src/components/smart/SmartHabitChains.tsx:33-37 | A chain day is complete iff every member habit was done that day |
| HabitChains.ChainDayIff | src/components/smart/SmartHabitChains.tsx:33-37 | Ids that match no habit are ignored when deciding a day |
| HabitChains.Refreshed | src/components/smart/SmartHabitChains.tsx:32-56 | Recomputation keeps the chain's identity; the rate is in [0,100] and the streak at most 7 |
| HabitChains.UnmatchedChainComplete | src/components/smart/SmartHabitChains.tsx:33-36 | A chain matching no current habit is 100% complete with a streak of 7 |
| HabitChains.StreakOfRefreshed | src/components/smart/SmartHabitChains.tsx:42-49 | The chain streak is the trailing run of complete days: 7 iff all days are complete, 0 iff sunday is not |
| HabitChains.StrugglingIff | src/components/smart/SmartHabitChains.tsx:62 | After recomputation a chain struggles iff at most 3 days are complete and it lists at least two habits |
| HabitChains.StrugglingInsightsExact | src/components/smart/SmartHabitChains.tsx:61-75 | The insights name exactly the struggling chains, with id `chain-struggling-<id>` and confidence 85 |
| HabitChains.RefreshChains | src/components/smart/SmartHabitChains.tsx:32-56 | The map loop yields each chain recomputed |
| HabitChains.StrugglingPass | src/components/smart/SmartHabitChains.tsx:61-75 | The forEach loop yields exactly the struggling-chain insights |
| HabitChains.LinkUpdatesShape | src/components/smart/SmartHabitChains.tsx:93-100 | Each link goes to an existing selected habit, keeps its old chain list as a prefix, and appends only other selected ids |
| HabitChains.ChainLinks | src/components/smart/SmartHabitChains.tsx:93-100 | The loop over the selection hands out exactly the link updates: each existing selected habit, in selection order, with the other selected ids appended |
| HabitChains.UnlinkUpdatesShape | src/components/smart/SmartHabitChains.tsx:112-119 | After an unlink, the habit's chain list mentions no habit of the deleted chain |
| HabitChains.RemoveChain | src/components/smart/SmartHabitChains.tsx:121 | Exactly the chains with other ids remain |
| HabitChains.AddPrerequisite | src/components/smart/SmartHabitChains.tsx:124-131 | An update is handed out iff the habit exists and lacks the prerequisite; the update appends it |
| HabitChains.AddPrerequisiteNoDuplicate | src/components/smart/SmartHabitChains.tsx:124-131 | The appended list is duplicate-free when the old one was, and once applied a repeated call is a no-op |
| HabitChains.RemovePrerequisite | src/components/smart/SmartHabitChains.tsx:133-140 | An existing habit gets its list without any occurrence of the id |
| HabitChains.SuccessRateBounds | src/components/smart/SmartHabitChains.tsx:142-145 | 0 with no chains, otherwise the mean of the chain rates, in [0,100] |
| HabitChains.ChainsPanel.constructor | src/components/smart/SmartHabitChains.tsx:24-28 | No chains, and an empty form |
| HabitChains.ChainsPanel.Recompute | src/components/smart/SmartHabitChains.tsx:31-76 | One pass: every chain is recomputed, and an insight is raised for each chain that then struggles |
| HabitChains.ChainsPanel.CreateChain | src/components/smart/SmartHabitChains.tsx:78-106 | Acts iff the trimmed name is non-empty and at least two habits are selected: appends one zeroed chain, hands out the links, and resets the form; otherwise nothing changes |
| HabitChains.ChainsPanel.DeleteChain | src/components/smart/SmartHabitChains.tsx:108-122 | Removes the chains with the id; if one existed, unlinks its habits |
| HabitChains.ChainsPanel.GetChainSuccessRate | src/components/smart/SmartHabitChains.tsx:142-145 | 0 with no chains; otherwise the rate times the count equals the sum of rates; in [0,100] |
| Scheduler.HabitRuleFor | src/components/smart/SmartScheduler.tsx:124-145 | Each habit rule is chosen iff its keywords match and no earlier rule's do |
| Scheduler.HabitChoiceFirstMatch | src/components/smart/SmartScheduler.tsx:117-145 | Confidence 85 iff exercise words; 80 for learning, or health without mindful; 75 for mindful, early-morning iff the draw says so; 70 otherwise |
| Scheduler.PriorityRuleFor | src/components/smart/SmartScheduler.tsx:169-185 | urgent beats estimatedTime > 120 (default 60), which beats creative words, which beat admin words |
| Scheduler.PriorityChoiceFirstMatch | src/components/smart/SmartScheduler.tsx:162-185 | Confidences 90/85/80/70 follow the rule order; the default is 75; the time is morning exactly for 90, 85 and 75 |
| Scheduler.TaskRuleFor | src/components/smart/SmartScheduler.tsx:209-221 | Planning words beat review words, which beat a high priority |
| Scheduler.TaskChoiceFirstMatch | src/components/smart/SmartScheduler.tsx:203-221 | Confidence 85 for planning, 75 for review, 80 for high priority, 60 otherwise |
| Scheduler.HabitPass | src/components/smart/SmartScheduler.tsx:110-158 | The forEach loop yields exactly HabitSuggestions |
| Scheduler.PriorityPass | src/components/smart/SmartScheduler.tsx:161-197 | The forEach loop yields one suggestion per priority |
| Scheduler.TaskPass | src/components/smart/SmartScheduler.tsx:200-234 | The forEach loop yields one suggestion per untimed task |
| Scheduler.GenerateSuggestions | src/components/smart/SmartScheduler.tsx:106-237 | The three passes produce habits, then open undated priorities, then the selected day's untimed tasks |
| Scheduler.HabitSuggestionsExact | src/components/smart/SmartScheduler.tsx:110-158 | One suggestion per habit without optimal times, and no others; the duration defaults to 15 |
| Scheduler.PrioritySuggestionsShape | src/components/smart/SmartScheduler.tsx:161-197 | One suggestion per priority, in order, with its id; the duration defaults to 60 |
| Scheduler.TaskSuggestionsShape | src/components/smart/SmartScheduler.tsx:200-234 | One suggestion per untimed task, and no others; the duration defaults to 30 |
| Scheduler.SuggestionsOrdered | src/components/smart/SmartScheduler.tsx:106-237 | The list is ordered habits, then priorities, then tasks, and every confidence is in [60,90] |
| Scheduler.TimeSlotFor | src/components/smart/SmartScheduler.tsx:263-274 | Each of the seven keys maps to its clock time; any other string maps to 08:00 |
| Scheduler.LabelsDistinct | src/components/smart/SmartScheduler.tsx:264-272 | Distinct labels have distinct keys and distinct clock times |
| Scheduler.HabitTimesUpdate | src/components/smart/SmartScheduler.tsx:248-254 | An update is handed out iff the suggestion is a habit suggestion for an existing habit; it appends the suggested time |
| Scheduler.AppliedHabitNotSuggested | src/components/smart/SmartScheduler.tsx:247-254 | The updated habit is not suggested again by the habit pass |
| Scheduler.Dismiss | src/components/smart/SmartScheduler.tsx:260 | Exactly the suggestions with other ids remain |
| Scheduler.SchedulerPanel.constructor | src/components/smart/SmartScheduler.tsx:36-38 | No suggestions; monday selected |
| Scheduler.SchedulerPanel.Analyze | src/components/smart/SmartScheduler.tsx:103-245 | The suggestions become the generated list for the selected day |
| Scheduler.SchedulerPanel.ApplySuggestion | src/components/smart/SmartScheduler.tsx:247-261 | Hands out the habit update; afterwards no suggestion has that id, whatever its kind |
| Swipe.Clamp | src/components/mobile/SwipeableCard.tsx:55-56 | The delta is clamped into [-150,150] and unchanged inside that range |
| Swipe.ActionIndexIsFirst | src/components/mobile/SwipeableCard.tsx:64 | Inside the clamp range and past the threshold, the computed index is 0 |
| Swipe.MoveTrigger | src/components/mobile/SwipeableCard.tsx:61-69 | Cleared at or below 120; past it, the revealed side's first action id; unchanged when that side is empty |
| Swipe.FindAction | src/components/mobile/SwipeableCard.tsx:81 | The first action with the id, or None iff none has it |
| Swipe.EndFires | src/components/mobile/SwipeableCard.tsx:78-86 | Fires only past 120, only a marked, non-empty id, and only an action on the revealed side |
| Swipe.SwipeFiresFirstAction | src/components/mobile/SwipeableCard.tsx:61-86 | A move then an end past the threshold fires the side's first action; at or below it nothing fires |
| Swipe.MoveKeepsMark | src/components/mobile/SwipeableCard.tsx:61-69 | The mark is always the first action of one side, or nothing |
| Swipe.SwipeCard.constructor | src/components/mobile/SwipeableCard.tsx:23-35 | At rest: offset 0, not dragging, nothing marked, nothing fired |
| Swipe.SwipeCard.TouchStart | src/components/mobile/SwipeableCard.tsx:40-46 | A no-op when disabled; otherwise dragging starts at x |
| Swipe.SwipeCard.TouchMove | src/components/mobile/SwipeableCard.tsx:48-70 | A no-op unless dragging and enabled; otherwise the offset is the clamped delta and the mark follows MoveTrigger |
| Swipe.SwipeCard.TouchEnd | src/components/mobile/SwipeableCard.tsx:72-91 | A no-op unless dragging and enabled; otherwise logs the action EndFires picks, then returns to rest |
| Swipe.SwipeCard.MouseDown | src/components/mobile/SwipeableCard.tsx:94-100 | As a touch start |
| Swipe.SwipeCard.MouseMove | src/components/mobile/SwipeableCard.tsx:102-112 | Clamps like a touch move but never changes the mark |
| Swipe.SwipeCard.MouseUp | src/components/mobile/SwipeableCard.tsx:114-120 | Returns to rest and fires nothing |
| Swipe.SwipeCard.ActionsVisible | src/components/mobile/SwipeableCard.tsx:122-125 | A side's strip shows iff it has actions and the card is past 80 pixels towards it |
| Swipe.HabitCardActions | src/components/mobile/SwipeableCard.tsx:214-242 | Left is 'complete' iff onComplete is given, captioned Undo or Complete; right is edit then delete, each iff given |
| Swipe.TaskCardActions | src/components/mobile/SwipeableCard.tsx:272-300 | Left is 'complete' iff onComplete is given, captioned Undo or Done; right is archive then delete, each iff given |
| Swipe.HabitCardSwipes | src/components/mobile/SwipeableCard.tsx:214-242 | On a habit card a full right swipe fires complete, and a full left swipe fires edit, or delete when there is no edit |
| SheetsSync.SheetValues | src/app/api/sheets/sync/route.ts:34-57 | 1 + priorities + habits + tasks rows, each with 5 cells |
| SheetsSync.ExportLayout | src/app/api/sheets/sync/route.ts:34-57 | The header first, then priority, habit and task rows in order, each with its type, name, status and date cells as built |
| SheetsSync.HabitStatusDecodes | src/app/api/sheets/sync/route.ts:46 | A habit's status is one digit 0-7 then "/7", and the digit is the checked-day count |
| SheetsSync.SyncPost | src/app/api/sheets/sync/route.ts:6-71 | 401 iff no session; 200 iff the body reads and clear and update succeed, and then exactly the export is written; the sheet is left cleared iff the clear succeeded and then the lists were missing or the update failed; it is untouched iff there is no session, the body is not JSON or the clear failed |
| SheetsSync.SyncGet | src/app/api/sheets/sync/route.ts:73-108 | 401 iff no session; 400 iff the sheetId is missing or empty; 500 iff the read fails; otherwise the values, or [] |
| SheetsSync.ReadBackOfWrite | src/app/api/sheets/sync/route.ts:28-102 | Clearing A1:Z1000 of any tab, writing rows from A1 and reading A1:E1000 gives the written rows with trailing empty cells dropped, or nothing when no rows were written |
| SheetsSync.GetAfterWrite | src/app/api/sheets/sync/route.ts:73-104 | GET after such a write answers 200 with those rows |
| SheetsSync.WriteThenRead | src/app/api/sheets/sync/route.ts:28-104 | Over any prior tab, an export of at most 1000 rows written by POST reads back through GET as written, trailing empty cells dropped; when every date text is non-empty, exactly as written |
| SheetsSync.LongExportTruncated | src/app/api/sheets/sync/route.ts:101 | An export longer than 1000 rows does not read back whole: GET returns at most 1000 rows |
| SheetLink.FirstMatch | src/components/integrations/GoogleSheetsSync.tsx:26 | The leftmost position where the marker is followed by an id character, or None iff there is none |
| SheetLink.IdRun | src/components/integrations/GoogleSheetsSync.tsx:26 | The greedy `[a-zA-Z0-9-_]+` run: all id characters, ending before a non-id character or the end |
| SheetLink.ExtractSheetId | src/components/integrations/GoogleSheetsSync.tsx:25-28 | On a match, a non-empty run of id characters; otherwise the input unchanged |
| SheetLink.ExtractIdempotent | src/components/integrations/GoogleSheetsSync.tsx:25-28 | Extracting twice equals extracting once |
| SheetLink.ExtractFromSheetUrl | src/components/integrations/GoogleSheetsSync.tsx:25-28 | A non-empty id of id characters is recovered from its "Open Sheet" URL |
| SheetLink.OpenSheetLink | src/components/integrations/GoogleSheetsSync.tsx:135-137 | The link is shown iff the id is non-empty, and it starts with the sheet URL prefix |
| SheetLink.HandleSync | src/components/integrations/GoogleSheetsSync.tsx:18-23 | onSync is called iff the id has a non-whitespace character, and it receives the trimmed id |
| DomainConfig.GetDomainConfig | src/lib/domain-config.ts:14-44 | Development takes precedence (http with a port), then staging, then production (https with no port); domains fall back to the defaults |
| DomainConfig.BaseUrlByEnvironment | src/lib/domain-config.ts:47-51 | http://localhost:3000 in development; otherwise https:// and the domain |
| DomainConfig.ApiUrl | src/lib/domain-config.ts:54-57 | The base URL, then "/api", then the path |
| DomainConfig.LeadingSlash | src/lib/domain-config.ts:79 | Always starts with "/"; a path already starting with "/" is kept as is |
| DomainConfig.CanonicalUrl | src/lib/domain-config.ts:77-81 | The base URL followed by a "/"-led path |
| DomainConfig.CanonicalUrlProperties | src/lib/domain-config.ts:54-81 | Adding the slash first changes nothing; the API URL is the canonical URL of "/api" + path |
| DomainConfig.IsCustomDomain | src/lib/domain-config.ts:84-89 | True iff the environment is production and the domain contains neither "vercel.app" nor "localhost" |
| DomainConfig.DefaultIsNotCustom | src/lib/domain-config.ts:84-89 | Without NEXT_PUBLIC_DOMAIN the domain is not custom |
| DomainConfig.NextAuthUrl | src/lib/domain-config.ts:66-74 | NEXTAUTH_URL when set and non-empty, else the base URL |
| DomainConfig.Robots | src/lib/domain-config.ts:101 | 'index,follow' iff production, else 'noindex,nofollow' |
| DomainConfig.JoinSplit | src/lib/domain-config.ts:61 | Splitting at dots, then joining, gives the string back |
| DomainConfig.SplitJoin | src/lib/domain-config.ts:61 | Joining dot-free pieces, then splitting, gives the pieces back |
| DomainConfig.IsValidDomain | src/lib/domain-config.ts:60-63 | Accepts only strings made of one or more valid labels, each followed by a dot, and then a TLD of two or more letters |
| DomainConfig.DomainOfParts | src/lib/domain-config.ts:60-63 | Every string of that shape is accepted |
| ServiceWorker.Dispatch | public/sw.js:64-79 | Same-origin GET is handled as a GET; same-origin POST/PUT/DELETE as a mutation; nothing else is intercepted |
| ServiceWorker.GetStrategy | public/sw.js:82-97 | Cache-first from the static cache iff the path is a static asset; otherwise network-first from the dynamic cache |
| ServiceWorker.StrategyExamples | public/sw.js:82-97 | An asset under /api/ is cache-first; the precached "/" and "/manifest.json" are network-first from the dynamic cache |
| ServiceWorker.OfflineFallback | public/sw.js:221-301 | Always 503; JSON iff the path starts with /api/, an HTML page otherwise |
| ServiceWorker.Succeeded | public/sw.js:316-333 | The replayed requests that succeeded, a sub-list of the queue |
| ServiceWorker.Remaining | public/sw.js:337-339 | Exactly the entries whose timestamp matches no succeeded request |
| ServiceWorker.ReplayQueue | public/sw.js:316-333 | The for-of loop collects exactly the succeeded requests, in order |
| ServiceWorker.RetryDropsSucceeded | public/sw.js:311-341 | No succeeded request is left; a failed one stays unless a success shares its timestamp; the queue never grows |
| ServiceWorker.SucceededContains | public/sw.js:326-327 | A request whose replay is ok is among the succeeded |
| ServiceWorker.SharedTimestampDropped | public/sw.js:337-339 | A failed request sharing a timestamp with a succeeded one is dropped too |
| ServiceWorker.Worker.constructor | public/sw.js:1-3 | No caches and an empty queue |
| ServiceWorker.Worker.OpenCache | public/sw.js:137 | Creates an empty cache only when the name is new |
| ServiceWorker.Worker.Put | public/sw.js:146 | Stores the response under the request's URL in that cache only, and only for a GET request; otherwise nothing changes |
| ServiceWorker.Worker.CacheFirstFetch | public/sw.js:135-154 | A hit is returned without the network and changes no cache; on a miss the network answer, or 503 on a network failure, and the only change is the named cache, opened, holding the answer iff it is an ok answer to a GET |
| ServiceWorker.Worker.NetworkFirstFetch | public/sw.js:157-179 | The network answer; a non-ok answer changes no cache, and otherwise the only change is the named cache, opened, holding an ok answer to a GET; on a network failure the cached copy, else the offline fallback |
| ServiceWorker.Worker.StoreFailedRequest | public/sw.js:201-218 | Appends exactly one time-stamped record at the end of the queue |
| ServiceWorker.Worker.HandleMutation | public/sw.js:100-132 | The network answer; when ok and the URL is cacheable the dynamic cache is opened, and the response is stored only for a GET, so never for the POST, PUT and DELETE routed here; on failure the request is queued and the answer is 202 |
| ServiceWorker.Worker.Fetch | public/sw.js:64-97 | Leaves non-intercepted requests alone; per route, the full outcome: a static asset cache first from the static cache, any other GET network first from the dynamic cache, and a POST, PUT or DELETE answered from the network with no response cached, or with 202 and one queued record when the network fails |
| ServiceWorker.Worker.Activate | public/sw.js:41-61 | Exactly the caches with one of the three current names remain, with their contents |
| ServiceWorker.StoredQueue | public/sw.js:201-217 | The record is appended iff localStorage exists; otherwise the queue is unchanged |
| ServiceWorker.QueuedMutationIsLost | public/sw.js:100-132 | In a service worker the 202 "queued" answer leaves the request in no queue, and no sync replays it |
| ServiceWorker.QueuedMutationIsReplayed | public/sw.js:311-341 | With a usable store, a queued request is the queue's last entry; the next sync drops it iff its replay is ok, unless a success shares its timestamp |
| ServiceWorker.Worker.RetryFailedRequests | public/sw.js:311-345 | The queue becomes the old queue without the entries matching a success; it is unchanged when nothing succeeded |
| ApiRoutes.NewHabitRecord | src/app/api/habits/route.ts:63-77 | The name as given; difficulty 'medium', 15 minutes (also for 0) and an unchecked week unless given |
| ApiRoutes.NameOnlyHabit | src/app/api/habits/route.ts:63-77 | A name-only body gives a medium, 15-minute habit with no day checked |
| ApiRoutes.NewPriorityRecord | src/app/api/priorities/route.ts:54-61 | Level 'medium' and no tags unless given; a due date iff one is given |
| ApiRoutes.HabitsOf | src/app/api/habits/route.ts:29-35 | Exactly the rows of that user |
| ApiRoutes.PrioritiesOf | src/app/api/priorities/route.ts:20-26 | Exactly the rows of that user |
| ApiRoutes.Store.constructor | src/app/api/habits/route.ts:4 | An empty database |
| ApiRoutes.Store.GetHabits | src/app/api/habits/route.ts:6-40 | 401 without an email; an unknown user is created (500 when that fails); 500 when the read fails; otherwise the user's habits |
| ApiRoutes.Store.PostHabit | src/app/api/habits/route.ts:42-88 | 401 iff no email; 400 iff no name (before the lookup); 404 iff the user is unknown; 201 iff the insert succeeds, and then only the new record is appended |
| ApiRoutes.Store.GetPriorities | src/app/api/priorities/route.ts:6-31 | 401 iff no email; 404 iff the user is unknown; 500 iff the read fails; otherwise the user's priorities |
| ApiRoutes.Store.PostPriority | src/app/api/priorities/route.ts:33-72 | 401 iff no email; 400 iff no text (before the lookup); 404 iff the user is unknown; 201 iff the insert succeeds, with the defaulted record |
| ApiRoutes.PostedHabitIsListed | src/app/api/habits/route.ts:29-83 | Rows are kept in store order: after a successful POST the next GET's listing is the earlier listing with the posted habit added at the end of store order; other users' listings are unchanged |
| ApiRoutes.PostedPriorityIsListed | src/app/api/priorities/route.ts:20-72 | The same for priorities |

## Left out

- Rendering (JSX, CSS, icons, animations), the "analyzing" timers, and the React effect re-run cycle are not modelled. One recomputation pass is modelled for the insights, the scheduler and the chains.
- React setters are not asynchronous in the model. The swipe handlers read and write the card's fields immediately; the source reads the state of the previous render.
- Floating point and `Math.round` are not modelled. Percentages are exact reals, and rounding is display-only. The insight `description` strings, which only carry rounded numbers, are left out of `SmartInsight`.
- `Date.now()`, `new Date()`, `Math.random()` and `toLocaleDateString` are inputs (`now`, `draw`, `dateText`). A task's `dueDate` is a millisecond time (`Option<int>`); the priorities API carries it as an optional string. Its conversion to a `Date` is not modelled.
- `toLowerCase` is modelled for ASCII letters only. Whitespace for `trim` is a fixed list of characters.
- Absent optional lists (`optimalTimes`, `chainedHabits`, `prerequisiteHabits`, `tags`) are modelled as empty lists. A chain update whose list was absent hands out `[]` where the source hands out `undefined`.
- The best and worst days come from a stable sort in the source. The model takes the first entry with the highest rate and the last with the lowest, over the day keys in first-occurrence order; JavaScript orders integer-like object keys first, and this model does not.
- Insights: the count of evening habits is not modelled, since the source never uses it.
- The enhanced WeeklyStats fields (averageStreakLength, longestCurrentStreak, habitChainSuccessRate, timeSpentOnHabits, productivityTrend, aiInsights) are not modelled. No modelled code computes them.
- Insights.TallyByDay: the tallies in the source are plain objects, so a day named like an `Object.prototype` member (such as "constructor") would start from the inherited value; the model starts every day from 0.
- Scheduler.TimeSlotFor: keys inherited from `Object.prototype` (such as "constructor") are not modelled; they are looked up in the source's plain object.
- Scheduler: the `timeSlots` display table is not modelled. Applying a task suggestion does nothing in the source beyond dismissing it, and that is what the model does.
- Swipe: the icons and the callbacks themselves are not modelled. Each action keeps its colour classes as strings. Firing an action is recorded as its id appended to the card's `fired` log.
- The spreadsheet service (googleapis), next-auth and the OAuth client are not modelled. Their outcomes are parameters. A request body is `Unparsable`, `MissingLists` (JSON whose `data` lacks a list; the handler throws only after the clear) or `Parsed`; which list is missing is not distinguished.
- The database queries (`src/lib/db/queries.ts`) are not part of this model. Their success is a `Faults` parameter, and rows are appended to the store. The queries list rows newest first, by creation date; the model lists them in store (insertion) order. The thrown-exception paths (500) are not modelled.
- ApiRoutes.Store.GetHabits: when the user lookup fails for a user who in fact exists, the source calls `createUser` again. The model treats that as a lookup that found nobody.
- Service worker: the install handler (`cache.addAll`), `skipWaiting`, `clients.claim`, and the push, notificationclick and message handlers are not modelled. Neither are request headers. The unawaited `cache.put` rejection is not modelled beyond storing nothing. The `sync` event is modelled only as the call to the retry.
- SheetsSync: the spreadsheet service is modelled as a grid of text cells. Rows past row 1000 or columns past Z are outside the cleared range and kept; number and date formatting of cells are not modelled.
- Service worker: the failed-request queue is modelled as stored, which is what the code intends; in a service worker it never is (see Findings).
- Service worker: the response bodies are tags (network body, queued JSON, offline JSON, offline page), not the literal JSON and HTML texts.
- The domain meta tags other than `robots` (metadataBase, canonical alternates, verification codes) are not modelled.
- Pure UI components (Header, LoginPage, ProgressReport, navigation and similar) and configuration files are not modelled.

## Findings

| source | as written | input that shows it | evidently intended | confidence | as-written member | corrected member |
|---|---|---|---|---|---|---|
| public/sw.js:201-217 | The failed-request queue is kept in `localStorage`, which a service worker's global scope lacks; the error is caught and logged, while the mutation handler still answers 202 "queued for sync" | Any POST, PUT or DELETE while the network is down: the answer is 202, the queue stays empty and no sync replays it | The request is kept in storage the worker can use, so the next sync replays it | not executed | ServiceWorker.QueuedMutationIsLost | ServiceWorker.QueuedMutationIsReplayed |
