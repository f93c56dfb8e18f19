/**
  The browser-local task store (hooks/useStorage.ts): one list of tasks kept
  under the `'tasks'` key of `localStorage`, read whole, changed and written back
  by every operation. Fresh ids and the current time are parameters.
 */
module Storage {
  import opened Seqs
  import opened Tasks

  /** A write outside a browser fails: `localStorage` does not exist there. */
  datatype StorageError = NoLocalStorage

  datatype Result<T> = Ok(value: T) | Err(error: StorageError)

  /** `{...task, ...updates, updatedAt: now}`: the stored form of an edited task. */
  function Updated(t: Task, u: TaskPatch, now: int): (r: Task)
    ensures r.updatedAt == Some(now) && r.createdAt == t.createdAt
    ensures r.status == Pick(u.status, t.status)
    ensures r.progress == Pick(u.progress, t.progress)
    ensures r.title == Pick(u.title, t.title) && r.description == Pick(u.description, t.description)
    ensures r.priority == Pick(u.priority, t.priority) && r.deadline == Pick(u.deadline, t.deadline)
    ensures r.tags == Pick(u.tags, t.tags) && r.id == Pick(u.id, t.id)
  {
    ApplyTaskPatch(t, u).(updatedAt := Some(now))
  }

  /** Setting progress to 100 through an update leaves the status as it was. */
  lemma UpdatedKeepsStatus(t: Task, now: int)
    ensures Updated(t, TaskPatch(None, None, None, None, None, None, None, Some(100)), now).status == t.status
  {
  }

  class TaskStore {
    /** Whether the code runs in a browser (`typeof window !== 'undefined'`). */
    const inBrowser: bool
    /** The parsed `'tasks'` entry of `localStorage`; `None` while nothing is stored. */
    var saved: Option<seq<Task>>

    constructor (inBrowser: bool, saved: Option<seq<Task>>)
      ensures this.inBrowser == inBrowser && this.saved == saved
    {
      this.inBrowser := inBrowser;
      this.saved := saved;
    }

    /** `getTasks`: the stored list; empty outside a browser or when nothing is stored. */
    function GetTasks(): (ts: seq<Task>)
      reads this
      ensures !inBrowser ==> ts == []
      ensures saved.None? ==> ts == []
      ensures inBrowser && saved.Some? ==> ts == saved.value
    {
      if !inBrowser then []
      else match saved
        case None => []
        case Some(ts) => ts
    }

    /**
      `addTask`: appends one task built from the input, with the fresh id,
      progress 0, status To Do and the creation time, and returns it.
     */
    method AddTask(input: CreateTaskInput, id: string, now: int) returns (r: Result<Task>)
      modifies this
      ensures inBrowser ==> r.Ok? && saved == Some(old(GetTasks()) + [r.value])
      ensures inBrowser ==> r.value == Task(id, input.title, input.description, input.priority,
                                            ToDo, input.deadline, input.tags, 0, Some(now), None)
      ensures !inBrowser ==> r.Err? && saved == old(saved)
      ensures UniqueIds(old(GetTasks())) && !HasId(old(GetTasks()), id) ==> UniqueIds(GetTasks())
    {
      var tasks := GetTasks();
      var t := Task(id, input.title, input.description, input.priority,
                    ToDo, input.deadline, input.tags, 0, Some(now), None);
      if !inBrowser {
        return Err(NoLocalStorage);
      }
      saved := Some(tasks + [t]);
      r := Ok(t);
      if UniqueIds(tasks) && !HasId(tasks, id) {
        AddKeepsUniqueIds(tasks, t);
      }
    }

    /**
      `updateTask`: replaces the first task carrying `id` by its updated form and
      returns that; `None` (the source's `null`) and no write when no task has the id.
     */
    method UpdateTask(id: string, updates: TaskPatch, now: int) returns (r: Option<Task>)
      modifies this
      ensures var i := IndexOfId(old(GetTasks()), id);
              i == -1 ==> r.None? && saved == old(saved)
      ensures var before, i := old(GetTasks()), IndexOfId(old(GetTasks()), id);
              i >= 0 ==> r == Some(Updated(before[i], updates, now)) && saved == Some(before[i := r.value])
      ensures UniqueIds(old(GetTasks())) && (updates.id.None? || updates.id == Some(id)) ==> UniqueIds(GetTasks())
    {
      var tasks := GetTasks();
      var i := IndexOfId(tasks, id);
      if i == -1 {
        return None;
      }
      var t := Updated(tasks[i], updates, now);
      saved := Some(tasks[i := t]);
      r := Some(t);
      if UniqueIds(tasks) && (updates.id.None? || updates.id == Some(id)) {
        UpdateKeepsUniqueIds(tasks, id, updates, now);
      }
    }

    /** `deleteTask`: keeps the tasks whose id differs, in order, and writes them back. */
    method DeleteTask(id: string) returns (r: Result<()>)
      modifies this
      ensures inBrowser ==> r.Ok? && saved == Some(WithoutId(old(GetTasks()), id))
      ensures !inBrowser ==> r.Err? && saved == old(saved)
      ensures UniqueIds(old(GetTasks())) ==> UniqueIds(GetTasks())
    {
      var tasks := GetTasks();
      var kept := WithoutId(tasks, id);
      if !inBrowser {
        return Err(NoLocalStorage);
      }
      saved := Some(kept);
      r := Ok(());
      if UniqueIds(tasks) {
        DeleteKeepsUniqueIds(tasks, id);
      }
    }
  }

  /** Appending a task with an unused id keeps ids unique. */
  lemma AddKeepsUniqueIds(ts: seq<Task>, t: Task)
    requires UniqueIds(ts) && !HasId(ts, t.id)
    ensures UniqueIds(ts + [t])
  {
  }

  /** Replacing a task by an update that keeps its id keeps ids unique. */
  lemma UpdateKeepsUniqueIds(ts: seq<Task>, id: string, u: TaskPatch, now: int)
    requires UniqueIds(ts)
    requires u.id.None? || u.id == Some(id)
    ensures var i := IndexOfId(ts, id);
            i >= 0 ==> UniqueIds(ts[i := Updated(ts[i], u, now)])
  {
  }

  /** Deleting keeps ids unique. */
  lemma DeleteKeepsUniqueIds(ts: seq<Task>, id: string)
    requires UniqueIds(ts)
    ensures UniqueIds(WithoutId(ts, id))
  {
    FilterKeepsUniqueIds(ts, (t: Task) => t.id != id);
  }
}
