/**
  The task record and its inputs (types/task.ts), the names the enumerations
  carry on the wire, and the two "spread" updates the application applies to a
  task: `{...task, ...updates}` with a partial creation input (the dashboard)
  and with a partial task (the local store).
 */
module Tasks {
  import opened Seqs

  datatype Priority = High | Medium | Low
  datatype Status = ToDo | InProgress | Done

  /** The fields a task list can be sorted by, and the sort directions. */
  datatype SortField = ByDeadline | ByPriority | ByProgress
  datatype Direction = Ascending | Descending

  function PriorityName(p: Priority): string {
    match p
    case High => "High"
    case Medium => "Medium"
    case Low => "Low"
  }

  function StatusName(s: Status): string {
    match s
    case ToDo => "To Do"
    case InProgress => "In Progress"
    case Done => "Done"
  }

  function SortFieldName(f: SortField): string {
    match f
    case ByDeadline => "deadline"
    case ByPriority => "priority"
    case ByProgress => "progress"
  }

  function DirectionName(d: Direction): string {
    match d
    case Ascending => "ascending"
    case Descending => "descending"
  }

  /** The priority a name denotes, if any. */
  function PriorityFromName(name: string): (r: Option<Priority>)
    ensures r.Some? ==> PriorityName(r.value) == name
  {
    if name == "High" then Some(High)
    else if name == "Medium" then Some(Medium)
    else if name == "Low" then Some(Low)
    else None
  }

  lemma PriorityNameRoundTrip(p: Priority)
    ensures PriorityFromName(PriorityName(p)) == Some(p)
  {
  }

  lemma NamesInjective(p: Priority, q: Priority, s: Status, u: Status, f: SortField, g: SortField)
    ensures PriorityName(p) == PriorityName(q) ==> p == q
    ensures StatusName(s) == StatusName(u) ==> s == u
    ensures SortFieldName(f) == SortFieldName(g) ==> f == g
  {
  }

  /**
    A task. `createdAt` and `updatedAt` are not part of the declared interface;
    the local store adds them, so they are optional here (milliseconds since the epoch).
   */
  datatype Task = Task(
    id: string,
    title: string,
    description: string,
    priority: Priority,
    status: Status,
    deadline: string,
    tags: seq<string>,
    progress: int,
    createdAt: Option<int>,
    updatedAt: Option<int>)

  datatype CreateTaskInput = CreateTaskInput(
    title: string,
    description: string,
    priority: Priority,
    deadline: string,
    tags: seq<string>)

  /** `Partial<CreateTaskInput>`: `None` is an absent field. */
  datatype InputPatch = InputPatch(
    title: Option<string>,
    description: Option<string>,
    priority: Option<Priority>,
    deadline: Option<string>,
    tags: Option<seq<string>>)

  /** `Partial<Task>`: `None` is an absent field. */
  datatype TaskPatch = TaskPatch(
    id: Option<string>,
    title: Option<string>,
    description: Option<string>,
    priority: Option<Priority>,
    status: Option<Status>,
    deadline: Option<string>,
    tags: Option<seq<string>>,
    progress: Option<int>)

  /** One field of an object spread: the update's value when present, else the current one. */
  function Pick<T>(update: Option<T>, current: T): T {
    match update
    case Some(v) => v
    case None => current
  }

  /**
    `{...t, ...u}` with a partial creation input: the five editable fields are
    taken from `u` where present; identity, status, progress and timestamps stay.
   */
  function ApplyInput(t: Task, u: InputPatch): (r: Task)
    ensures r.id == t.id && r.status == t.status && r.progress == t.progress
    ensures r.createdAt == t.createdAt && r.updatedAt == t.updatedAt
    ensures u == InputPatch(None, None, None, None, None) ==> r == t
  {
    t.(title := Pick(u.title, t.title),
       description := Pick(u.description, t.description),
       priority := Pick(u.priority, t.priority),
       deadline := Pick(u.deadline, t.deadline),
       tags := Pick(u.tags, t.tags))
  }

  /** `{...t, ...u}` with a partial task: every field present in `u` overrides, the rest stay. */
  function ApplyTaskPatch(t: Task, u: TaskPatch): (r: Task)
    ensures r.createdAt == t.createdAt && r.updatedAt == t.updatedAt
    ensures u.status.None? ==> r.status == t.status
    ensures u.id.None? ==> r.id == t.id
  {
    t.(id := Pick(u.id, t.id),
       title := Pick(u.title, t.title),
       description := Pick(u.description, t.description),
       priority := Pick(u.priority, t.priority),
       status := Pick(u.status, t.status),
       deadline := Pick(u.deadline, t.deadline),
       tags := Pick(u.tags, t.tags),
       progress := Pick(u.progress, t.progress))
  }

  /** Applying the same spread twice is the same as applying it once. */
  lemma ApplyTaskPatchIdempotent(t: Task, u: TaskPatch)
    ensures ApplyTaskPatch(ApplyTaskPatch(t, u), u) == ApplyTaskPatch(t, u)
  {
  }

  /** `tasks.filter(task => task.id !== id)`. */
  function WithoutId(ts: seq<Task>, id: string): (r: seq<Task>)
    ensures forall i :: 0 <= i < |r| ==> r[i].id != id
    ensures forall t :: t in ts && t.id != id ==> t in r
    ensures forall t :: t in r ==> t in ts
    ensures IsSubsequence(r, ts)
  {
    Filter(ts, (t: Task) => t.id != id)
  }

  predicate HasId(ts: seq<Task>, id: string) {
    exists i :: 0 <= i < |ts| && ts[i].id == id
  }

  /** Removing an id no task carries changes nothing. */
  lemma WithoutAbsentId(ts: seq<Task>, id: string)
    requires !HasId(ts, id)
    ensures WithoutId(ts, id) == ts
  {
    FilterKeepsAll(ts, (t: Task) => t.id != id);
  }

  /** Removing the id of a task appended with a fresh id undoes the append. */
  lemma WithoutFreshAppended(ts: seq<Task>, t: Task)
    requires !HasId(ts, t.id)
    ensures WithoutId(ts + [t], t.id) == ts
  {
    FilterAppend(ts, [t], (x: Task) => x.id != t.id);
    WithoutAbsentId(ts, t.id);
  }

  /** No two tasks share an id. */
  ghost predicate UniqueIds(ts: seq<Task>) {
    forall i, j :: 0 <= i < j < |ts| ==> ts[i].id != ts[j].id
  }

  /** `tasks.findIndex(task => task.id === id)`: the first position holding `id`, or -1. */
  function IndexOfId(ts: seq<Task>, id: string): (r: int)
    ensures r == -1 <==> !HasId(ts, id)
    ensures r >= 0 ==> r < |ts| && ts[r].id == id && forall j :: 0 <= j < r ==> ts[j].id != id
  {
    IndexOf(ts, (t: Task) => t.id == id)
  }

  /** Keeping a subset of the tasks keeps their ids distinct. */
  lemma {:induction false} FilterKeepsUniqueIds(ts: seq<Task>, p: Task -> bool)
    requires UniqueIds(ts)
    ensures UniqueIds(Filter(ts, p))
    decreases |ts|
  {
    if ts != [] {
      var rest := ts[1..];
      assert UniqueIds(rest) by {
        forall i, j | 0 <= i < j < |rest| ensures rest[i].id != rest[j].id {
          assert rest[i] == ts[i + 1] && rest[j] == ts[j + 1];
        }
      }
      FilterKeepsUniqueIds(rest, p);
      var fr := Filter(rest, p);
      if p(ts[0]) {
        var r := [ts[0]] + fr;
        assert r == Filter(ts, p);
        forall i, j | 0 <= i < j < |r| ensures r[i].id != r[j].id {
          if i == 0 {
            assert r[j] == fr[j - 1] && fr[j - 1] in fr;
            assert r[j] in rest;
            var k :| 0 <= k < |rest| && rest[k] == r[j];
            assert ts[k + 1] == r[j];
          } else {
            assert r[i] == fr[i - 1] && r[j] == fr[j - 1];
          }
        }
      }
    }
  }
}
