# Task dashboard with points: a Dafny model

This project models the logic of a small task-management web app. The app keeps
tasks in a Notion database, or in the browser's `localStorage`. It shows them on
a dashboard with status tabs, filters, sorting and deadline notices. A separate
gamification hook awards points, levels, streak bonuses and badges.

The model covers these pieces of code:

- `hooks/usePoints.ts`: the points ledger. `Points.PointLedger` is a class with
  the hook's state (`points`, the newest-first `history`, `stats`) and the three
  `localStorage` keys it writes. `calculateLevel` is restated over integers as
  "the largest `k` with `k²·1000 ≤ points`, plus one".
- `hooks/useStorage.ts`: the local task store. `Storage.TaskStore` is a class over
  the stored list, with `getTasks`, `addTask`, `updateTask` and `deleteTask`.
- `components/advanced-dashboard.tsx`: everything apart from rendering:
  - the status tabs;
  - the sort and filter updaters;
  - the query string of the fetch;
  - the deadline notifier, over integer day numbers;
  - the local list updates after each request;
  - the progress button;
  - the tag field.
- `lib/notion.ts`: the pure half of the database adapter:
  - page → task mapping with its defaults;
  - the create, update and progress request bodies;
  - status from progress;
  - the filter and sort query built by `getFilteredTasks`.
- `app/api/tasks/route.ts`: how the GET handler turns the query string into the
  options of `getFilteredTasks`. It joins the dashboard to the adapter.
- `types/task.ts`: the `Task` and `CreateTaskInput` records. `Task` also gets
  optional `createdAt`/`updatedAt`, because the local store adds them and the
  badge check reads `createdAt`.

The `Consistency` module connects the pieces, and proves three things:

- The dashboard's query string is read back by the endpoint as exactly the view's
  options, and the resulting database query selects exactly the pages the view
  asks for.
- After a create or an edit, the dashboard's local list holds what the database
  would read back.
- After a progress update it does not (see Findings).

Each React handler of the points hook is modelled with the values it captured on
entry:

- Every read of `points`, `stats` and `history` inside the handler sees the entry
  value. This also holds inside nested `addPoints` calls.
- History changes through functional updates, so successive updates chain.
- `points` and `stats` change through plain setters, so the last write wins.

`Points.PointLedger.AddPointsWith` runs `addPoints` for a closure that captured
given values. `UpdateStreak` and `CheckBadges` call it with their own entry
snapshot.

How the two back ends treat the status:

- `updateTask` in hooks/useStorage.ts:31-35 spreads the update over the stored
  task and recomputes no status (`Storage.UpdatedKeepsStatus`).
- `updateTaskProgress` in lib/notion.ts:92 derives the status from the progress.
  The dashboard's local list does not (Finding 3).

Files:

| file | module | contents |
|---|---|---|
| `seqs.dfy` | `Seqs` | `Option`; `filter`, `findIndex` and `map` on sequences |
| `text.dfy` | `Text` | decimal text, ASCII `toLowerCase`, `trim`, `split`, `join` |
| `task.dfy` | `Tasks` | task records, enum names, object spreads, removal by id |
| `storage.dfy` | `Storage` | the local task store |
| `points.dfy` | `Points` | levels, streaks, badges, the points ledger and Findings 1–2 |
| `notion.dfy` | `Notion` | pages, request bodies, queries and their meaning |
| `tasks_route.dfy` | `TasksRoute` | the GET endpoint's query-string parsing |
| `dashboard.dfy` | `Dashboard` | the dashboard's non-UI logic |
| `sync.dfy` | `Consistency` | end-to-end agreement between the pieces, and Finding 3 |

## Model

| member | source | states |
|---|---|---|
| `Seqs.Filter` | hooks/useStorage.ts:44 | `filter` keeps exactly the elements meeting the predicate, in their original order, with no more elements than the input |
| `Seqs.FilterKeepsAll` | hooks/useStorage.ts:44 | a filter every element passes returns the list unchanged |
| `Seqs.FilterAppend` | components/advanced-dashboard.tsx:170-180 | filtering a concatenation is concatenating the filtered parts |
| `Seqs.IndexOf` | hooks/useStorage.ts:27 | `findIndex` is -1 exactly when no element matches, and otherwise is the first matching position |
| `Seqs.Map` | lib/notion.ts:23 | `map` keeps the length and applies the function at every position |
| `Text.NatToString` | hooks/usePoints.ts:187 | the decimal text of a number is non-empty, all digits, with no leading zero |
| `Text.NatToStringRoundTrip` | hooks/usePoints.ts:187 | reading the decimal text back gives the number |
| `Text.Lower` | lib/notion.ts:197 | `toLowerCase` keeps the length and lowers each ASCII letter in place |
| `Text.LowerIdempotent` | lib/notion.ts:197 | lowering twice is lowering once |
| `Text.TrimStart` | components/advanced-dashboard.tsx:381 | the result is a suffix of the input, what it drops is all white space, and it does not start with white space |
| `Text.TrimEnd` | components/advanced-dashboard.tsx:381 | the result is a prefix of the input, what it drops is all white space, and it does not end with white space |
| `Text.Trim` | components/advanced-dashboard.tsx:381 | `trim` gives the part of the input between its leading and trailing white space, which neither starts nor ends with white space |
| `Text.TrimTrimmed` | components/advanced-dashboard.tsx:381 | trimming a string with no white space at either end changes nothing |
| `Text.TrimAfterBlank` | components/advanced-dashboard.tsx:381 | `trim` removes a blank put in front of a trimmed string |
| `Text.Split` | components/advanced-dashboard.tsx:381 | `split` never returns an empty list |
| `Text.SplitCount` | components/advanced-dashboard.tsx:381 | `split` gives one piece more than there are separators |
| `Text.SplitPiecesFree` | components/advanced-dashboard.tsx:381 | no piece of a split holds the separator |
| `Text.JoinSplit` | components/advanced-dashboard.tsx:381 | joining the pieces with the separator rebuilds the string |
| `Text.SplitFree` | components/advanced-dashboard.tsx:381 | a string without the separator splits into itself |
| `Text.SplitJoin` | components/advanced-dashboard.tsx:577 | splitting a join of separator-free pieces gives the pieces back |
| `Tasks.PriorityFromName` | types/task.ts:5 | a name read as a priority is that priority's name |
| `Tasks.PriorityNameRoundTrip` | types/task.ts:5 | every priority's name reads back as that priority |
| `Tasks.NamesInjective` | types/task.ts:5-6 | distinct priorities, statuses and sort fields have distinct names |
| `Tasks.ApplyInput` | components/advanced-dashboard.tsx:124-126 | spreading a partial create-input over a task keeps its id, status, progress and timestamps, and an empty input changes nothing |
| `Tasks.ApplyTaskPatch` | hooks/useStorage.ts:31-33 | spreading a partial task keeps the timestamps, and keeps status and id unless the patch sets them |
| `Tasks.ApplyTaskPatchIdempotent` | hooks/useStorage.ts:31-33 | applying the same spread twice is applying it once |
| `Tasks.WithoutId` | hooks/useStorage.ts:44 | removing an id keeps exactly the tasks with other ids, in order |
| `Tasks.WithoutAbsentId` | hooks/useStorage.ts:42-46 | deleting an id no task carries leaves the list unchanged |
| `Tasks.WithoutFreshAppended` | hooks/useStorage.ts:42-46 | deleting a task just added with a fresh id restores the list |
| `Tasks.IndexOfId` | hooks/useStorage.ts:27 | the index is -1 exactly when no task has the id, and otherwise is the first position with it |
| `Tasks.FilterKeepsUniqueIds` | hooks/useStorage.ts:44 | any filter of a list with distinct ids keeps ids distinct |
| `Storage.Updated` | hooks/useStorage.ts:31-35 | the stored form of an edit takes every field present in the update and keeps every absent one, keeps `createdAt` and sets `updatedAt` to now |
| `Storage.UpdatedKeepsStatus` | hooks/useStorage.ts:31-35 | setting progress to 100 through `updateTask` leaves the status as it was |
| `Storage.TaskStore.constructor` | hooks/useStorage.ts:4 | the store starts with the given environment and stored list |
| `Storage.TaskStore.GetTasks` | hooks/useStorage.ts:5-9 | `getTasks` is empty outside a browser or when nothing is stored, and otherwise is the stored list |
| `Storage.TaskStore.AddTask` | hooks/useStorage.ts:11-23 | `addTask` appends exactly one task (fresh id, input fields, To Do, progress 0, created now) after the earlier ones and returns it; outside a browser it fails with nothing written; with an unused id the stored ids stay distinct |
| `Storage.TaskStore.UpdateTask` | hooks/useStorage.ts:25-40 | an unknown id gives null and no write; otherwise only the first task with the id is replaced by its updated form, which is returned; an update that keeps the id keeps the stored ids distinct |
| `Storage.TaskStore.DeleteTask` | hooks/useStorage.ts:42-46 | `deleteTask` stores the list without the id, others in order; outside a browser it fails with nothing written; distinct stored ids stay distinct |
| `Storage.AddKeepsUniqueIds` | hooks/useStorage.ts:13-20 | appending a task with an unused id keeps ids distinct |
| `Storage.UpdateKeepsUniqueIds` | hooks/useStorage.ts:37 | replacing a task by an update that keeps its id keeps ids distinct |
| `Storage.DeleteKeepsUniqueIds` | hooks/useStorage.ts:44 | deleting keeps ids distinct |
| `Points.FloorSqrt` | hooks/usePoints.ts:77 | the integer square root `r` satisfies `r² ≤ n < (r+1)²` |
| `Points.CalculateLevel` | hooks/usePoints.ts:75-80 | for points ≥ 0, level ≥ 1, `(level−1)²·1000 ≤ points < level²·1000` and `nextLevelPoints = level²·1000`; negative points (NaN in the source) give no level |
| `Points.LevelUnique` | hooks/usePoints.ts:75-80 | a level whose band contains the points is the computed level |
| `Points.LevelMonotone` | hooks/usePoints.ts:75-80 | more points never give a lower level |
| `Points.SumPointsAppend` | hooks/usePoints.ts:191-194 | the points recorded in two stacked history parts add up |
| `Points.LevelReached` | hooks/usePoints.ts:183 | a level-up is detected exactly when both the new and the old level are numbers, and then names the new level |
| `Points.AwardedStats` | hooks/usePoints.ts:198-203 | after an award the stats carry current points and level fields of `old + delta` without the bonus, and keep streak, last activity and badges |
| `Points.AwardShape` | hooks/usePoints.ts:182-196 | an award records its entry with the signed delta, preceded by exactly one level-up entry of `level·100` when a level is reached (however many are crossed), and raises the total by exactly what it records |
| `Points.AwardWithoutLevelUp` | hooks/usePoints.ts:193-196 | without a level-up the total moves by the delta alone |
| `Points.LevelUpExample` | hooks/usePoints.ts:171-203 | 950 then +100 gives a total of 1250 but stats at level 2 with 1050 current points and 4000 to the next level |
| `Points.ElapsedDays` | hooks/usePoints.ts:117 | the elapsed days are the floor of the elapsed time over a day, negative spans included |
| `Points.SameDayNoElapsedDay` | hooks/usePoints.ts:117-122 | less than a day after the last activity no whole day has passed |
| `Points.StreakBonus` | hooks/usePoints.ts:127 | the streak bonus is `10·streak` up to 100, so between 10 and 100 for any streak ≥ 1 |
| `Points.StreakAfter` | hooks/usePoints.ts:119-132 | after exactly one day the streak grows by one, after any other non-zero span it restarts at 1 |
| `Points.BadgeIndex` | hooks/usePoints.ts:144 | `find` by id gives the first badge with that id, or none when no badge has it |
| `Points.Acquire` | hooks/usePoints.ts:145-146 | acquiring a badge keeps the badge list's length and ids |
| `Points.BadgeIndexByIds` | hooks/usePoints.ts:144 | lookups by id agree on badge lists with the same ids |
| `Points.UnlockBadges` | hooks/usePoints.ts:139-160 | the badge check keeps the length and the ids of the badge list |
| `Points.AcquireTouchesOnly` | hooks/usePoints.ts:145-146 | acquiring a badge changes no badge at another position |
| `Points.AcquireStamps` | hooks/usePoints.ts:145-146 | acquiring sets `acquired` and `acquiredAt` to now on the first badge with the id and keeps its id, name, description and icon; a list without the id is unchanged |
| `Points.AcquireHolds` | hooks/usePoints.ts:145-146 | a badge the list has is held after it is acquired |
| `Points.AcquireKeepsOther` | hooks/usePoints.ts:145-146 | acquiring one badge leaves whether another is held unchanged |
| `Points.UnlockBadgesKeepsOthers` | hooks/usePoints.ts:144-160 | the badge check never changes a badge other than first-task and speed-runner |
| `Points.UnlockBadgesKeepsAcquired` | hooks/usePoints.ts:144-160 | the badge check never changes a badge already acquired |
| `Points.UnlockBadgesStamps` | hooks/usePoints.ts:144-160 | every badge the check changes is the old badge marked acquired at now, its other fields kept |
| `Points.UnlockBadgesHoldsFirstTask` | hooks/usePoints.ts:144-149 | after the badge check first-task is held whenever the list has it |
| `Points.UnlockBadgesHoldsSpeedRunner` | hooks/usePoints.ts:152-160 | after the badge check speed-runner is held exactly when it was held before or the task is at most a day old |
| `Points.UnlockBadgesSteps` | hooks/usePoints.ts:144-160 | the two badge steps in sequence give the badge check's result |
| `Points.AcquiredBadgesStay` | hooks/usePoints.ts:144-160 | an acquired badge is never reverted |
| `Points.FirstTaskOnlyOnce` | hooks/usePoints.ts:144-149 | after one badge check the first-task badge never fires again |
| `Points.InitialBadgesFound` | hooks/usePoints.ts:37-73 | in the initial badge list first-task is found at position 0 and speed-runner at 1 |
| `Points.PointLedger.constructor` | hooks/usePoints.ts:83-92 | the hook starts at 0 points, empty history, level 1 with 1000 to the next level, streak 0, the five initial badges, and nothing stored |
| `Points.PointLedger.AddPointsWith` | hooks/usePoints.ts:171-209 | an award run by a closure that captured a total, stats and history puts its entries in front of the current history and overwrites the total, the stats and the three stored keys |
| `Points.PointLedger.AddPoints` | hooks/usePoints.ts:171-209 | `addPoints` puts the entry and the possible level-up entry in front of the history; the total includes the bonus while the stored total does not; the stored history is the one from before the call; a total that matched its history still does |
| `Points.PointLedger.UpdateStreak` | hooks/usePoints.ts:114-137 | with no whole day elapsed nothing changes; after one day the streak grows and its bonus is awarded; otherwise the streak restarts at 1 with no points; in both changing cases the stats are those captured on entry with the new streak and time |
| `Points.PointLedger.CheckBadges` | hooks/usePoints.ts:139-169 | the check puts the first-task (100) and speed-runner (200) entries in front of the history, sets the total from the captured one, and writes the stats with the new badges only when something unlocked |
| `Points.PointLedger.UpdateStreakChained` | hooks/usePoints.ts:114-137 | the streak update with stats written over the award's, so the level reached by a streak bonus is kept |
| `Points.PointLedger.CheckBadgesChained` | hooks/usePoints.ts:139-169 | the badge check with each award reading the previous one's state: the badges are unlocked as before, and a total that matched its history's sum still does |
| `Points.BothBadgesLoseFirstAward` | hooks/usePoints.ts:145-160 | on a fresh ledger with a task created just now both badges fire, the history records 300 points and the total is 200 |
| `Points.StreakLevelBonusRepeats` | hooks/usePoints.ts:128-135 | at 990 points, one day on, the streak bonus reaches level 2 for a total of 1200, yet the stats keep level 1, so the next +10 reaches level 2 again |
| `Points.StreakLevelBonusOnce` | hooks/usePoints.ts:128-135 | with the award's stats kept, the same next +10 reaches no new level |
| `Notion.OrDefault` | lib/notion.ts:28 | `x \|\| fallback` on a string gives `x` when set and non-empty, and the fallback otherwise |
| `Notion.StatusFromName` | lib/notion.ts:31 | a name read as a status is that status's name |
| `Notion.StatusNameRoundTrip` | lib/notion.ts:31 | every status's name reads back as that status |
| `Notion.PriorityOf` | lib/notion.ts:30 | a page without a priority reads as Low |
| `Notion.StatusOf` | lib/notion.ts:31 | a page without a status reads as To Do |
| `Notion.PageToTask` | lib/notion.ts:26-35 | a page keeps its id; a missing title, description or deadline reads as `''`, missing tags as `[]`, missing progress as 0, and a page with no properties as the all-defaults task |
| `Notion.TasksFromPages` | lib/notion.ts:236-245 | the filtered query maps every page, in order, with the same mapping as the unfiltered one |
| `Notion.CreateProperties` | lib/notion.ts:47-69 | `createTask` sends all seven properties, with status To Do and progress 0 |
| `Notion.CreatedTask` | lib/notion.ts:72-77 | `createTask` returns the input fields, the new page's id, status To Do and progress 0 |
| `Notion.CreateRoundTrip` | lib/notion.ts:43-77 | the page `createTask` creates reads back as the task it returns |
| `Notion.StatusFromProgress` | lib/notion.ts:92 | the status is Done exactly at 100, In Progress exactly above 0 otherwise, and To Do exactly at or below 0 |
| `Notion.StatusAbove100` | lib/notion.ts:92 | progress 150 is not clamped and reads as In Progress |
| `Notion.ProgressProperties` | lib/notion.ts:88-95 | `updateTaskProgress` sends the progress and status properties only |
| `Notion.ProgressRoundTrip` | lib/notion.ts:84-101 | after a progress update the page reads back with that progress and the derived status, all else unchanged |
| `Notion.UpdatePayload` | lib/notion.ts:115-147 | the `updateTask` payload never carries status or progress, and is empty for an empty input |
| `Notion.UpdatePayloadAt` | lib/notion.ts:117-147 | the payload has a property exactly for each field the input defines, carrying that field's value in the database's format |
| `Notion.BuildUpdatePayload` | lib/notion.ts:117-147 | assembling the payload field by field gives that payload |
| `Notion.UpdatedReads` | lib/notion.ts:115-147 | after an update each text property reads as the sent value where one was sent, else as before |
| `Notion.UpdatedSelects` | lib/notion.ts:131-135 | after an update the priority reads as the sent one where one was sent, and the status as before |
| `Notion.UpdateRoundTrip` | lib/notion.ts:115-152 | the updated page reads back as the old task with the input's defined fields spread over it |
| `Notion.SortProp` | lib/notion.ts:211-227 | a sort field names a property exactly when it is one of priority, deadline and progress, and then has that name |
| `Notion.QueryFor` | lib/notion.ts:169-234 | the filter is omitted exactly when no option is set, and is never an empty `and`; there is at most one sort, omitted exactly when no sort or an unknown field is given, on the requested field |
| `Notion.QueryClauses` | lib/notion.ts:173-208 | one clause per truthy option, in the order priority, status, search: select equalities for priority and status, the title-or-description search last |
| `Notion.BuildQuery` | lib/notion.ts:169-234 | pushing clauses and sorts one at a time builds that query |
| `Notion.AllTasksIsUnfiltered` | lib/notion.ts:13-16 | `getTasks` sends the filtered query of no filter and a deadline-ascending sort |
| `Notion.QuerySelectsWanted` | lib/notion.ts:169-208 | the query keeps a page exactly when it has the requested priority and status and, with a search, its title or description contains the lower-cased search text |
| `TasksRoute.GetFindsFirst` | app/api/tasks/route.ts:16-21 | `searchParams.get` is null exactly when the key is absent, and otherwise is the first value given for it |
| `TasksRoute.OptionsFromParams` | app/api/tasks/route.ts:16-31 | the endpoint passes priority and status as given, the search only when non-empty, and a sort only when both field and direction are non-empty |
| `TasksRoute.FieldWithoutDirectionUnsorted` | app/api/tasks/route.ts:27-30 | a sort field without a direction gives a query with no sorts |
| `Dashboard.TabTasks` | components/advanced-dashboard.tsx:152-163 | the todo, inprogress and done tabs keep exactly the tasks of their status, in order; any other tab keeps all tasks |
| `Dashboard.TabsPartition` | components/advanced-dashboard.tsx:152-163 | every task shows in exactly one of the three status tabs |
| `Dashboard.ApplySort` | components/advanced-dashboard.tsx:145-150 | the chosen field is set, and the direction is descending exactly when the same field was chosen while ascending |
| `Dashboard.ApplySortToggles` | components/advanced-dashboard.tsx:145-150 | re-choosing the same field flips the direction, so two more choices restore it |
| `Dashboard.ApplySortOtherField` | components/advanced-dashboard.tsx:148 | choosing another field always starts ascending |
| `Dashboard.ApplyFilter` | components/advanced-dashboard.tsx:138-143 | the named key takes the value and the other key stays |
| `Dashboard.ApplyFilterLastWins` | components/advanced-dashboard.tsx:138-143 | of two updates to one key the later wins; updates to different keys commute |
| `Dashboard.ParamsForRanked` | components/advanced-dashboard.tsx:48-55 | the parameters come in the order priority, status, search, sortField, sortDirection, each at most once and none empty |
| `Dashboard.ParamsForEndsWithDirection` | components/advanced-dashboard.tsx:52-55 | with a sort field chosen the direction comes last, ascending by default |
| `Dashboard.BuildParams` | components/advanced-dashboard.tsx:48-55 | appending parameters one at a time builds that list |
| `Dashboard.Notifications` | components/advanced-dashboard.tsx:165-196 | the notices are one per task that is not done and due from today to three days ahead, and nothing else |
| `Dashboard.NotificationsAppend` | components/advanced-dashboard.tsx:170-193 | the notices follow task order: a concatenation's notices are the parts' notices in turn |
| `Dashboard.NoNoticeUnlessDue` | components/advanced-dashboard.tsx:171-180 | a done, overdue or later task brings no notice |
| `Dashboard.NoticeForDueTask` | components/advanced-dashboard.tsx:170-193 | a due task brings exactly its notice |
| `Dashboard.ReportDueInTwoDays` | components/advanced-dashboard.tsx:188-190 | the message for "Report" due in two days reads `"Report" is due in 2 days` |
| `Dashboard.HighPriorityTitle` | components/advanced-dashboard.tsx:187 | the title for a high-priority task is "High Priority Task" |
| `Dashboard.NoticeExample` | components/advanced-dashboard.tsx:181-193 | a high-priority To Do task "Report" due in two days brings one deadline notice with its id, that title and that message |
| `Dashboard.UpdateWhere` | components/advanced-dashboard.tsx:106-107 | mapping by id changes only the tasks with that id, leaving the others in place |
| `Dashboard.AfterAdd` | components/advanced-dashboard.tsx:83 | after a create the new task is appended after the unchanged list |
| `Dashboard.AfterDelete` | components/advanced-dashboard.tsx:93 | after a delete every task with the id is gone and the rest stay, in order |
| `Dashboard.AfterProgress` | components/advanced-dashboard.tsx:106-108 | after a progress update the matching tasks take the progress and keep their status; the others are unchanged |
| `Dashboard.AfterUpdate` | components/advanced-dashboard.tsx:124-126 | after an edit the matching tasks take the input's defined fields; the others are unchanged |
| `Dashboard.LocalUpdatesKeepIds` | components/advanced-dashboard.tsx:106-126 | the local updates keep every task's id at its position |
| `Dashboard.NextProgress` | components/advanced-dashboard.tsx:466 | the progress button adds 10 up to a cap of 100 |
| `Dashboard.PressesCapped` | components/advanced-dashboard.tsx:466 | `n` presses from at most 100 give `min(p + 10n, 100)` |
| `Dashboard.TenPressesComplete` | components/advanced-dashboard.tsx:466 | ten presses from any valid progress reach 100, and more keep it there |
| `Dashboard.ParseTags` | components/advanced-dashboard.tsx:381 | the tag field gives one tag per comma-separated piece, each the trimmed piece, so at least one tag |
| `Dashboard.TagCount` | components/advanced-dashboard.tsx:381 | the field gives one tag more than it has commas |
| `Dashboard.TagsCommaFree` | components/advanced-dashboard.tsx:381 | no tag read from the field holds a comma |
| `Dashboard.TrimInfix` | components/advanced-dashboard.tsx:381 | `trim` introduces no character |
| `Dashboard.JoinCommaBlank` | components/advanced-dashboard.tsx:577 | joining with ", " is joining the blank-prefixed tags with "," |
| `Dashboard.TrimSpaced` | components/advanced-dashboard.tsx:381 | trimming the blank-prefixed trimmed tags gives the tags back |
| `Dashboard.SpacedCommaFree` | components/advanced-dashboard.tsx:381 | prefixing blanks adds no comma |
| `Dashboard.TagsRoundTrip` | components/advanced-dashboard.tsx:577 | the edit dialog's `tags.join(', ')`, read back by its `split(',')`/`trim` (line 523), gives back any non-empty list of trimmed comma-free tags |
| `Dashboard.NoTagsBecomeOneEmptyTag` | components/advanced-dashboard.tsx:577 | an empty tag list comes back from the edit dialog as one empty tag |
| `Consistency.GetConcat` | app/api/tasks/route.ts:16-21 | the first value of a key in a concatenation comes from the first part when it has the key |
| `Consistency.OptionsFromGets` | app/api/tasks/route.ts:16-31 | the endpoint's options are fixed by what `get` reads for its five keys |
| `Consistency.GetPriorityParam` | components/advanced-dashboard.tsx:49 | the endpoint reads back the view's priority filter |
| `Consistency.GetStatusParam` | components/advanced-dashboard.tsx:50 | the endpoint reads back the view's status filter |
| `Consistency.GetSearchParam` | components/advanced-dashboard.tsx:51 | the endpoint reads back the view's search text, when non-empty |
| `Consistency.GetSortParams` | components/advanced-dashboard.tsx:52-55 | the endpoint reads back the view's sort field and direction, ascending by default |
| `Consistency.FetchParamsRoundTrip` | components/advanced-dashboard.tsx:48-57 | the options the endpoint reads from the fetch's query string are exactly those the view holds |
| `Consistency.ViewOptionsWanted` | components/advanced-dashboard.tsx:48-55 | the view's options ask of a page exactly what the view's filter and search ask |
| `Consistency.FetchSelectsWanted` | lib/notion.ts:169-208 | the query sent for the view selects exactly the pages the view asks for |
| `Consistency.FetchSortsChosen` | lib/notion.ts:210-233 | the query sent for the view sorts by the chosen field and direction, or not at all |
| `Consistency.EditAgrees` | components/advanced-dashboard.tsx:114-126 | after an edit the local task is what the edited page reads back as |
| `Consistency.CreateAgrees` | components/advanced-dashboard.tsx:72-83 | after a create the appended task is what the new page reads back as |
| `Consistency.ProgressStatusDrifts` | components/advanced-dashboard.tsx:106-108 | after a progress update to 100, a To Do task stays To Do locally but reads back Done from the database |
| `Consistency.AfterProgressSynced` | components/advanced-dashboard.tsx:106-108 | the corrected local update sets the progress and derives the status, leaving other tasks unchanged |
| `Consistency.ProgressSyncedAgrees` | lib/notion.ts:84-96 | with the derived status, the local task after a progress update is what the page reads back as |

## Left out

- The Notion client calls, and the Next.js request and response plumbing: a page is a value and a query is a value. Error propagation (`catch` and rethrow, HTTP 500) is not modelled.
- `deleteTask` in `lib/notion.ts` (an archive request with no data to shape), the PATCH and DELETE handlers of `app/api/tasks/[id]/route.ts`, the POST handler, and the clear route with its concurrent `Promise.all`.
- `components/confetti.tsx` and `components/profile-dialog.tsx`: animation, randomness and rendering only.
- JSX, `fetch`, `useEffect`, the hourly `setInterval` and React batching. The notifier is a function of the task list and the day; the handlers are modelled with the closure semantics described above.
- Floating point. `calculateLevel` is stated over integers, which agrees with `Math.floor(Math.sqrt(points / 1000))` for whole non-negative points; fractional points are not modelled.
- JavaScript `Date` parsing, time zones and `setHours`. The points logic takes integer milliseconds. The notifier takes integer day numbers, through a `dayOf` parameter that reads a deadline string. Ids and the current time are parameters in place of `crypto.randomUUID()` and `new Date()`.
- `localStorage` and JSON serialisation: the stored keys are fields. The load effect of the points hook (hooks/usePoints.ts:94-112) is not modelled.
- Points.PointLedger.CheckBadges: badges are values, so the source's in-place mutation of shared badge objects, including the module-level initial badge list, is not modelled.
- The badges perfect-week, task-master and high-achiever: the source gives them no unlock condition, so they only ever stay as they are.
- Text.Lower: lowers ASCII letters only; Unicode case mapping is not modelled.
- Notion.QuerySelectsWanted: containment is read literally; how the database compares case in `contains` is not modelled.
- Notion.PageToTask: a select name outside the enum reads as the default, and a property of the wrong type reads as missing. The source would pass the raw name through, or throw.
- URL encoding of the query string: parameters are key–value pairs.
- An explicitly `undefined` field in a partial update is treated like an absent one.

## Findings

| source | as written | input that shows it | evidently intended | confidence | as-written member | corrected member |
|---|---|---|---|---|---|---|
| hooks/usePoints.ts:145-160 | both badge awards in `checkBadges` compute their total from the `points` captured on entry, so the second award's `setPoints` overwrites the first | a fresh ledger (0 points) and a task created at the moment it is completed: the history gains 100 and 200 points, the total becomes 200 | the total is 300, matching the history | high, not executed | `Points.BothBadgesLoseFirstAward` | `Points.PointLedger.CheckBadgesChained` |
| hooks/usePoints.ts:134-136 | `updateStreak` writes back the `stats` captured on entry, overwriting the level that its own streak bonus just reached | 990 points and one day later: the 10-point bonus reaches level 2 (+200, total 1200), the stats keep level 1, and the next +10 awards the level-2 bonus again | the level reached is kept and its bonus is paid once | high, not executed | `Points.StreakLevelBonusRepeats` | `Points.PointLedger.UpdateStreakChained` (with `Points.StreakLevelBonusOnce`) |
| components/advanced-dashboard.tsx:106-108 | after a progress update the local list changes only `progress`, while the database derives the status from it (lib/notion.ts:92) | a To Do task pressed up to 100: the database has it Done, the dashboard still shows it To Do, in the To Do tab, until the next fetch | the local task takes the derived status too, as the database does | medium, not executed | `Consistency.ProgressStatusDrifts` | `Consistency.AfterProgressSynced` (with `Consistency.ProgressSyncedAgrees`) |
