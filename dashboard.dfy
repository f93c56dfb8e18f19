/**
  The logic of the dashboard (components/advanced-dashboard.tsx) apart from its
  rendering: the status tabs, the sort and filter selections, the query string
  of the task fetch, the deadline notifications, the local list updates that
  follow each request, the progress button and the tag field.
 */
module Dashboard {
  import opened Seqs
  import opened Text
  import opened Tasks

  // ---------------------------------------------------------------------------
  // Tabs
  // ---------------------------------------------------------------------------

  /** The status a tab shows: 'todo', 'inprogress' and 'done'; every other tab shows all. */
  function TabStatus(tab: string): Option<Status> {
    if tab == "todo" then Some(ToDo)
    else if tab == "inprogress" then Some(InProgress)
    else if tab == "done" then Some(Done)
    else None
  }

  function WithStatus(s: Status): Task -> bool {
    (t: Task) => t.status == s
  }

  /** `getFilteredTasks(tasks, tab)`: the tasks of the tab's status in list order, or all of them. */
  function TabTasks(tasks: seq<Task>, tab: string): (r: seq<Task>)
    ensures TabStatus(tab).None? ==> r == tasks
    ensures TabStatus(tab).Some? ==> && (forall i :: 0 <= i < |r| ==> r[i].status == TabStatus(tab).value)
                                     && (forall t :: t in tasks && t.status == TabStatus(tab).value ==> t in r)
                                     && IsSubsequence(r, tasks)
  {
    match TabStatus(tab)
    case Some(s) => Filter(tasks, WithStatus(s))
    case None => tasks
  }

  /** Every task shows in exactly one of the three status tabs. */
  lemma TabsPartition(tasks: seq<Task>)
    ensures |TabTasks(tasks, "todo")| + |TabTasks(tasks, "inprogress")| + |TabTasks(tasks, "done")| == |tasks|
  {
    assert TabStatus("todo") == Some(ToDo);
    assert TabStatus("inprogress") == Some(InProgress);
    assert TabStatus("done") == Some(Done);
    StatusesPartition(tasks);
  }

  lemma {:induction false} StatusesPartition(tasks: seq<Task>)
    ensures |Filter(tasks, WithStatus(ToDo))| + |Filter(tasks, WithStatus(InProgress))| + |Filter(tasks, WithStatus(Done))| == |tasks|
    decreases |tasks|
  {
    if tasks != [] {
      StatusesPartition(tasks[1..]);
    }
  }

  // ---------------------------------------------------------------------------
  // Sort and filter selections
  // ---------------------------------------------------------------------------

  datatype SortState = SortState(field: Option<SortField>, direction: Option<Direction>)

  /** `applySort(field)`: descending when the same field is chosen again while ascending, else ascending. */
  function ApplySort(prev: SortState, field: SortField): (r: SortState)
    ensures r.field == Some(field) && r.direction.Some?
    ensures r.direction == Some(Descending) <==> prev.field == Some(field) && prev.direction == Some(Ascending)
  {
    SortState(Some(field), if prev.field == Some(field) && prev.direction == Some(Ascending) then Some(Descending) else Some(Ascending))
  }

  /** Choosing the same field again flips the direction, so choosing it twice more restores it. */
  lemma ApplySortToggles(prev: SortState, field: SortField)
    ensures var once := ApplySort(prev, field);
            && ApplySort(once, field).direction != once.direction
            && ApplySort(ApplySort(once, field), field) == once
  {
  }

  /** Choosing another field always starts ascending. */
  lemma ApplySortOtherField(prev: SortState, field: SortField)
    requires prev.field != Some(field)
    ensures ApplySort(prev, field) == SortState(Some(field), Some(Ascending))
  {
  }

  datatype FilterState = FilterState(priority: Option<Priority>, status: Option<Status>)

  /** `applyFilter(type, value)`: `None` clears the key. */
  datatype FilterUpdate = SetPriority(priority: Option<Priority>) | SetStatus(status: Option<Status>)

  /** `{...prev, [type]: value}`: the named key takes the value, the other stays. */
  function ApplyFilter(prev: FilterState, u: FilterUpdate): (r: FilterState)
    ensures u.SetPriority? ==> r.priority == u.priority && r.status == prev.status
    ensures u.SetStatus? ==> r.status == u.status && r.priority == prev.priority
  {
    match u
    case SetPriority(p) => prev.(priority := p)
    case SetStatus(s) => prev.(status := s)
  }

  /** Updates of the same key: the later wins; updates of different keys commute. */
  lemma ApplyFilterLastWins(f: FilterState, u: FilterUpdate, v: FilterUpdate)
    ensures u.SetPriority? == v.SetPriority? ==> ApplyFilter(ApplyFilter(f, u), v) == ApplyFilter(f, v)
    ensures u.SetPriority? != v.SetPriority? ==> ApplyFilter(ApplyFilter(f, u), v) == ApplyFilter(ApplyFilter(f, v), u)
  {
  }

  // ---------------------------------------------------------------------------
  // The query string of the task fetch
  // ---------------------------------------------------------------------------

  /** The position of a parameter of the fetch in its query string. */
  function ParamRank(key: string): int {
    if key == "priority" then 0
    else if key == "status" then 1
    else if key == "search" then 2
    else if key == "sortField" then 3
    else if key == "sortDirection" then 4
    else 5
  }

  /** Keys in strictly increasing position, each within `[lo, hi)`, values non-empty. */
  predicate RankedParams(r: seq<(string, string)>, lo: int, hi: int) {
    && (forall i, j :: 0 <= i < j < |r| ==> ParamRank(r[i].0) < ParamRank(r[j].0))
    && (forall i :: 0 <= i < |r| ==> lo <= ParamRank(r[i].0) < hi && r[i].1 != "")
  }

  lemma RankedConcat(a: seq<(string, string)>, b: seq<(string, string)>, lo: int, mid: int, hi: int)
    requires lo <= mid <= hi
    requires RankedParams(a, lo, mid) && RankedParams(b, mid, hi)
    ensures RankedParams(a + b, lo, hi)
  {
    var r := a + b;
    forall i, j | 0 <= i < j < |r| ensures ParamRank(r[i].0) < ParamRank(r[j].0) {
      if j < |a| {
        assert r[i] == a[i] && r[j] == a[j];
      } else if i < |a| {
        assert r[i] == a[i] && r[j] == b[j - |a|];
      } else {
        assert r[i] == b[i - |a|] && r[j] == b[j - |a|];
      }
    }
    forall i | 0 <= i < |r| ensures lo <= ParamRank(r[i].0) < hi && r[i].1 != "" {
      if i < |a| {
        assert r[i] == a[i];
      } else {
        assert r[i] == b[i - |a|];
      }
    }
  }

  /** The parts of the fetch's query string: one per setting, each empty when unset. */
  function PriorityPart(filter: FilterState): seq<(string, string)> {
    if filter.priority.Some? then [("priority", PriorityName(filter.priority.value))] else []
  }

  function StatusPart(filter: FilterState): seq<(string, string)> {
    if filter.status.Some? then [("status", StatusName(filter.status.value))] else []
  }

  function SearchPart(search: string): seq<(string, string)> {
    if search != "" then [("search", search)] else []
  }

  function SortPart(sort: SortState): seq<(string, string)> {
    if sort.field.Some?
    then [("sortField", SortFieldName(sort.field.value)), ("sortDirection", DirectionName(Pick(sort.direction, Ascending)))]
    else []
  }

  /**
    The parameters of the fetch: priority, status and search when set; a sort
    field when one is chosen, followed by its direction, ascending by default.
   */
  function ParamsFor(filter: FilterState, search: string, sort: SortState): seq<(string, string)> {
    PriorityPart(filter) + StatusPart(filter) + SearchPart(search) + SortPart(sort)
  }

  /** Each key of the fetch appears at most once, in that order, and no value is empty. */
  lemma ParamsForRanked(filter: FilterState, search: string, sort: SortState)
    ensures RankedParams(ParamsFor(filter, search, sort), 0, 5)
  {
    var a, b, c, d := PriorityPart(filter), StatusPart(filter), SearchPart(search), SortPart(sort);
    PartsRanked(filter, search, sort);
    RankedConcat(a, b, 0, 1, 2);
    RankedConcat(a + b, c, 0, 2, 3);
    RankedConcat(a + b + c, d, 0, 3, 5);
  }

  lemma PartsRanked(filter: FilterState, search: string, sort: SortState)
    ensures RankedParams(PriorityPart(filter), 0, 1) && RankedParams(StatusPart(filter), 1, 2)
    ensures RankedParams(SearchPart(search), 2, 3) && RankedParams(SortPart(sort), 3, 5)
  {
    assert ParamRank("priority") == 0 && ParamRank("status") == 1 && ParamRank("search") == 2;
    assert ParamRank("sortField") == 3 && ParamRank("sortDirection") == 4;
  }

  /** With a sort field chosen, the direction is the last parameter, ascending by default. */
  lemma ParamsForEndsWithDirection(filter: FilterState, search: string, sort: SortState)
    requires sort.field.Some?
    ensures var r := ParamsFor(filter, search, sort);
            |r| >= 2 && r[|r| - 1] == ("sortDirection", DirectionName(Pick(sort.direction, Ascending)))
  {
  }

  /** The fetch effect appending to its `URLSearchParams` one parameter at a time. */
  method BuildParams(filter: FilterState, search: string, sort: SortState) returns (params: seq<(string, string)>)
    ensures params == ParamsFor(filter, search, sort)
  {
    params := [];
    if filter.priority.Some? {
      params := params + [("priority", PriorityName(filter.priority.value))];
    }
    assert params == PriorityPart(filter);
    if filter.status.Some? {
      params := params + [("status", StatusName(filter.status.value))];
    }
    assert params == PriorityPart(filter) + StatusPart(filter);
    if search != "" {
      params := params + [("search", search)];
    }
    assert params == PriorityPart(filter) + StatusPart(filter) + SearchPart(search);
    if sort.field.Some? {
      params := params + [("sortField", SortFieldName(sort.field.value))];
      params := params + [("sortDirection", DirectionName(Pick(sort.direction, Ascending)))];
    }
  }

  // ---------------------------------------------------------------------------
  // Deadline notifications
  // ---------------------------------------------------------------------------

  datatype NoticeKind = DeadlineNotice | ProgressNotice

  datatype Notification = Notification(id: string, title: string, message: string, kind: NoticeKind)

  /**
    Whether a task is reported on day `today`: it is not done and its deadline,
    read by `dayOf` as a day number, lies from today to three days ahead. A
    deadline `dayOf` cannot read is never reported.
   */
  predicate DueSoon(t: Task, today: int, dayOf: string -> Option<int>) {
    t.status != Done && dayOf(t.deadline).Some? && today <= dayOf(t.deadline).value <= today + 3
  }

  function Due(today: int, dayOf: string -> Option<int>): Task -> bool {
    (t: Task) => DueSoon(t, today, dayOf)
  }

  /** When the task is due, in words. */
  function DueIn(days: int): string {
    if days == 0 then "today" else if days == 1 then "tomorrow" else "in " + IntToString(days) + " days"
  }

  /** The notice for a task due in `days` days. */
  function NoticeFor(t: Task, days: int): Notification {
    Notification(t.id, PriorityName(t.priority) + " Priority Task", "\"" + t.title + "\" is due " + DueIn(days), DeadlineNotice)
  }

  function DaysLeft(t: Task, today: int, dayOf: string -> Option<int>): int {
    match dayOf(t.deadline)
    case Some(d) => d - today
    case None => 0
  }

  function NoticeOf(today: int, dayOf: string -> Option<int>): Task -> Notification {
    (t: Task) => NoticeFor(t, DaysLeft(t, today, dayOf))
  }

  /** `checkDeadlines` on day `today`: one notice per reported task, in task order; the new list replaces the old. */
  function Notifications(tasks: seq<Task>, today: int, dayOf: string -> Option<int>): (r: seq<Notification>)
    ensures |r| <= |tasks|
    ensures forall t :: t in tasks && DueSoon(t, today, dayOf) ==> NoticeFor(t, DaysLeft(t, today, dayOf)) in r
    ensures forall n :: n in r ==> exists t :: t in tasks && DueSoon(t, today, dayOf) && n == NoticeFor(t, DaysLeft(t, today, dayOf))
  {
    var due := Filter(tasks, Due(today, dayOf));
    MapMembers(due, NoticeOf(today, dayOf));
    Map(due, NoticeOf(today, dayOf))
  }

  /** Notices follow the task list: those of a concatenation are the two lists' notices in turn. */
  lemma NotificationsAppend(a: seq<Task>, b: seq<Task>, today: int, dayOf: string -> Option<int>)
    ensures Notifications(a + b, today, dayOf) == Notifications(a, today, dayOf) + Notifications(b, today, dayOf)
  {
    FilterAppend(a, b, Due(today, dayOf));
  }

  /** A done task, or one due outside the window, brings no notice. */
  lemma NoNoticeUnlessDue(t: Task, today: int, dayOf: string -> Option<int>)
    requires !DueSoon(t, today, dayOf)
    ensures Notifications([t], today, dayOf) == []
  {
    assert Filter([t], Due(today, dayOf)) == [];
  }

  /** A single task that is due brings exactly its notice. */
  lemma NoticeForDueTask(t: Task, today: int, dayOf: string -> Option<int>)
    requires DueSoon(t, today, dayOf)
    ensures Notifications([t], today, dayOf) == [NoticeFor(t, DaysLeft(t, today, dayOf))]
  {
    var r := Notifications([t], today, dayOf);
    assert NoticeFor(t, DaysLeft(t, today, dayOf)) in r;
  }

  /** Two days ahead reads "in 2 days". */
  lemma DueInTwoDays()
    ensures DueIn(2) == "in 2 days"
  {
    assert IntToString(2) == [DigitChar(2)] == "2";
  }

  lemma ReportDueInTwoDays(title: string)
    requires title == "Report"
    ensures "\"" + title + "\" is due " + DueIn(2) == "\"Report\" is due in 2 days"
  {
    DueInTwoDays();
    assert "\"" + title == "\"Report";
    assert "\"Report" + "\" is due " == "\"Report\" is due ";
  }

  lemma HighPriorityTitle()
    ensures PriorityName(High) + " Priority Task" == "High Priority Task"
  {
  }

  /** A high-priority task due two days ahead brings the notice "High Priority Task", '"Report" is due in 2 days'. */
  lemma NoticeExample(t: Task, today: int, dayOf: string -> Option<int>)
    requires t.title == "Report" && t.priority == High && t.status == ToDo
    requires dayOf(t.deadline) == Some(today + 2)
    ensures Notifications([t], today, dayOf)
            == [Notification(t.id, "High Priority Task", "\"Report\" is due in 2 days", DeadlineNotice)]
  {
    NoticeForDueTask(t, today, dayOf);
    ReportDueInTwoDays(t.title);
    HighPriorityTitle();
    assert DaysLeft(t, today, dayOf) == 2;
  }

  // ---------------------------------------------------------------------------
  // The local list after each request
  // ---------------------------------------------------------------------------

  /** `tasks.map(task => task.id === id ? f(task) : task)`. */
  function UpdateWhere(tasks: seq<Task>, id: string, f: Task -> Task): (r: seq<Task>)
    ensures |r| == |tasks|
    ensures forall i :: 0 <= i < |tasks| && tasks[i].id != id ==> r[i] == tasks[i]
    ensures forall i :: 0 <= i < |tasks| && tasks[i].id == id ==> r[i] == f(tasks[i])
  {
    Map(tasks, (t: Task) => if t.id == id then f(t) else t)
  }

  /** After `addTask`: the created task at the end. */
  function AfterAdd(tasks: seq<Task>, created: Task): (r: seq<Task>)
    ensures |r| == |tasks| + 1 && r[..|tasks|] == tasks && r[|tasks|] == created
  {
    tasks + [created]
  }

  /** After `deleteTask`: every task with that id gone, the rest in order. */
  function AfterDelete(tasks: seq<Task>, id: string): (r: seq<Task>)
    ensures forall i :: 0 <= i < |r| ==> r[i].id != id
    ensures forall t :: t in tasks && t.id != id ==> t in r
    ensures IsSubsequence(r, tasks)
  {
    WithoutId(tasks, id)
  }

  function SetProgress(progress: int): Task -> Task {
    (t: Task) => t.(progress := progress)
  }

  /** After `updateTaskProgress`: the matching tasks take the progress; their status stays. */
  function AfterProgress(tasks: seq<Task>, id: string, progress: int): (r: seq<Task>)
    ensures |r| == |tasks|
    ensures forall i :: 0 <= i < |tasks| && tasks[i].id != id ==> r[i] == tasks[i]
    ensures forall i :: 0 <= i < |tasks| && tasks[i].id == id ==> r[i] == tasks[i].(progress := progress)
  {
    UpdateWhere(tasks, id, SetProgress(progress))
  }

  function SetFields(u: InputPatch): Task -> Task {
    (t: Task) => ApplyInput(t, u)
  }

  /** After `updateTask`: the matching tasks take the defined fields of the input. */
  function AfterUpdate(tasks: seq<Task>, id: string, u: InputPatch): (r: seq<Task>)
    ensures |r| == |tasks|
    ensures forall i :: 0 <= i < |tasks| && tasks[i].id != id ==> r[i] == tasks[i]
    ensures forall i :: 0 <= i < |tasks| && tasks[i].id == id ==> r[i] == ApplyInput(tasks[i], u)
  {
    UpdateWhere(tasks, id, SetFields(u))
  }

  /** The local updates keep every task's id in its place. */
  lemma LocalUpdatesKeepIds(tasks: seq<Task>, id: string, progress: int, u: InputPatch)
    ensures forall i :: 0 <= i < |tasks| ==> AfterProgress(tasks, id, progress)[i].id == tasks[i].id
    ensures forall i :: 0 <= i < |tasks| ==> AfterUpdate(tasks, id, u)[i].id == tasks[i].id
  {
  }

  // ---------------------------------------------------------------------------
  // The progress button
  // ---------------------------------------------------------------------------

  /** `Math.min(progress + 10, 100)`. */
  function NextProgress(p: int): (r: int)
    ensures r <= 100
    ensures p <= 90 ==> r == p + 10
    ensures p >= 90 ==> r == 100
  {
    if p + 10 < 100 then p + 10 else 100
  }

  function Presses(p: int, n: nat): int
    decreases n
  {
    if n == 0 then p else Presses(NextProgress(p), n - 1)
  }

  /** `n` presses from `p` give `p + 10n`, capped at 100. */
  lemma {:induction false} PressesCapped(p: int, n: nat)
    requires p <= 100
    ensures Presses(p, n) == if p + 10 * n < 100 then p + 10 * n else 100
    decreases n
  {
    if n > 0 {
      PressesCapped(NextProgress(p), n - 1);
    }
  }

  /** Ten presses take any progress from 0 up to 100, and further presses keep it there. */
  lemma TenPressesComplete(p: int, n: nat)
    requires 0 <= p <= 100 && n >= 10
    ensures Presses(p, n) == 100
  {
    PressesCapped(p, n);
  }

  // ---------------------------------------------------------------------------
  // Tags
  // ---------------------------------------------------------------------------

  /** The tag field read back: split at every comma, each piece trimmed. */
  function ParseTags(s: string): (r: seq<string>)
    ensures |r| >= 1
    ensures forall i :: 0 <= i < |r| ==> IsTrimmed(r[i])
    ensures |r| == |Split(s, ',')| && forall i :: 0 <= i < |r| ==> r[i] == Trim(Split(s, ',')[i])
  {
    Map(Split(s, ','), Trim)
  }

  /** One tag more than there are commas. */
  lemma TagCount(s: string)
    ensures |ParseTags(s)| == CountChar(s, ',') + 1
  {
    SplitCount(s, ',');
  }

  /** No tag read from the field holds a comma. */
  lemma TagsCommaFree(s: string)
    ensures forall i :: 0 <= i < |ParseTags(s)| ==> ',' !in ParseTags(s)[i]
  {
    SplitPiecesFree(s, ',');
    forall i | 0 <= i < |ParseTags(s)| ensures ',' !in ParseTags(s)[i] {
      var piece := Split(s, ',')[i];
      var t := Trim(piece);
      TrimInfix(piece);
    }
  }

  /** Every character `trim` returns comes from its input. */
  lemma TrimInfix(s: string)
    ensures forall c :: c in Trim(s) ==> c in s
  {
    var r := Trim(s);
    var k := |s| - |TrimStart(s)|;
    forall c | c in r ensures c in s {
      var j :| 0 <= j < |r| && r[j] == c;
      assert s[k + j] == c;
    }
  }

  /** The tags with a blank put before each one but the first. */
  function Spaced(tags: seq<string>): (r: seq<string>)
    requires |tags| >= 1
    ensures |r| == |tags| && r[0] == tags[0]
    ensures forall i :: 1 <= i < |tags| ==> r[i] == " " + tags[i]
  {
    [tags[0]] + Map(tags[1..], (t: string) => " " + t)
  }

  lemma JoinBlankFirst(x: string, rest: seq<string>, sep: string)
    ensures Join([" " + x] + rest, sep) == " " + Join([x] + rest, sep)
  {
    if rest != [] {
      assert ([" " + x] + rest)[1..] == rest;
      assert ([x] + rest)[1..] == rest;
    }
  }

  /** Joining with ", " is joining the spaced tags with ",". */
  lemma {:induction false} JoinCommaBlank(tags: seq<string>)
    requires |tags| >= 1
    ensures Join(tags, ", ") == Join(Spaced(tags), [','])
    decreases |tags|
  {
    if |tags| > 1 {
      var rest := tags[1..];
      JoinCommaBlank(rest);
      var sr := Spaced(rest);
      assert Spaced(tags)[1..] == [" " + rest[0]] + sr[1..];
      assert sr == [rest[0]] + sr[1..];
      JoinBlankFirst(rest[0], sr[1..], [',']);
    }
  }

  /** Trimming the spaced tags gives the tags back. */
  lemma TrimSpaced(tags: seq<string>)
    requires |tags| >= 1
    requires forall i :: 0 <= i < |tags| ==> IsTrimmed(tags[i])
    ensures Map(Spaced(tags), Trim) == tags
  {
    var sp := Spaced(tags);
    var r := Map(sp, Trim);
    forall i | 0 <= i < |tags| ensures r[i] == tags[i] {
      if i == 0 {
        TrimTrimmed(tags[0]);
      } else {
        TrimAfterBlank(tags[i]);
      }
    }
  }

  /** No spaced tag holds a comma when no tag does. */
  lemma SpacedCommaFree(tags: seq<string>)
    requires |tags| >= 1
    requires forall i :: 0 <= i < |tags| ==> ',' !in tags[i]
    ensures forall i :: 0 <= i < |tags| ==> ',' !in Spaced(tags)[i]
  {
  }

  /**
    The edit form shows the tags joined by ", " and reads them back as above:
    a non-empty list of trimmed tags without commas survives the round trip.
   */
  lemma TagsRoundTrip(tags: seq<string>)
    requires |tags| >= 1
    requires forall i :: 0 <= i < |tags| ==> IsTrimmed(tags[i]) && ',' !in tags[i]
    ensures ParseTags(Join(tags, ", ")) == tags
  {
    JoinCommaBlank(tags);
    SpacedCommaFree(tags);
    SplitJoin(Spaced(tags), ',');
    TrimSpaced(tags);
  }

  /** An empty tag list does not survive: it comes back as one empty tag. */
  lemma NoTagsBecomeOneEmptyTag()
    ensures ParseTags(Join([], ", ")) == [""]
  {
    TrimTrimmed("");
  }
}
