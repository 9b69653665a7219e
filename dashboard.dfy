/** The dashboard's overdue and due-soon sections and its defer action
    (`src/screens/dashboard/DashboardScreen.tsx`). */
module Dashboard {
  import opened Seqs
  import opened Types
  import opened Dates
  import opened AppContext
  import opened Store

  function ActiveTasks(tasks: seq<Task>): seq<Task>
  {
    Filter(tasks, (t: Task) => t.isActive)
  }

  /** Active tasks whose due instant is past. */
  function OverdueTasks(tasks: seq<Task>, now: Instant): seq<Task>
  {
    Filter(ActiveTasks(tasks), (t: Task) => IsOverdue(t.nextDue, now))
  }

  /** Active tasks due within the default week and not overdue. */
  function DueSoonTasks(tasks: seq<Task>, now: Instant): seq<Task>
  {
    Filter(ActiveTasks(tasks), (t: Task) => IsDueSoon(t.nextDue, now) && !IsOverdue(t.nextDue, now))
  }

  /** Both sections hold only active tasks, and no task is in both. */
  lemma SectionsDisjointAndActive(tasks: seq<Task>, now: Instant)
    ensures forall i :: 0 <= i < |OverdueTasks(tasks, now)| ==>
      OverdueTasks(tasks, now)[i].isActive && IsOverdue(OverdueTasks(tasks, now)[i].nextDue, now)
    ensures forall i :: 0 <= i < |DueSoonTasks(tasks, now)| ==>
      DueSoonTasks(tasks, now)[i].isActive && IsDueSoon(DueSoonTasks(tasks, now)[i].nextDue, now)
    ensures forall t :: t in OverdueTasks(tasks, now) ==> t !in DueSoonTasks(tasks, now)
  {
  }

  /** What each section shows: its first five tasks. */
  function Shown(section: seq<Task>): (r: seq<Task>)
    ensures |r| <= 5 && r <= section
    ensures |section| <= 5 ==> r == section
  {
    Take(section, 5)
  }

  /** The task list after deferring task `taskId` by `days` days from `now`;
      an unknown id changes nothing. */
  function Deferred(s: AppState, taskId: string, days: int, now: Instant): AppState
  {
    match FindTask(s.tasks, taskId)
    case None => s
    case Some(t) => Reduce(s, UpdateTask(t.(nextDue := AddDays(now, days))))
  }

  /** Deferring moves only `nextDue`: every task with that id becomes the found
      task due `days` days from now, the other tasks, the items and the logs
      stay as they were, and no log is written. */
  lemma DeferEffects(s: AppState, taskId: string, days: int, now: Instant)
    ensures var r := Deferred(s, taskId, days, now);
      && r.items == s.items && r.logs == s.logs && |r.tasks| == |s.tasks|
      && (forall i :: 0 <= i < |s.tasks| && s.tasks[i].id != taskId ==> r.tasks[i] == s.tasks[i])
      && (forall i :: 0 <= i < |s.tasks| && s.tasks[i].id == taskId ==>
            r.tasks[i] == FindTask(s.tasks, taskId).value.(nextDue := AddDays(now, days)))
    ensures FindTask(s.tasks, taskId).None? ==> Deferred(s, taskId, days, now) == s
  {
  }

  /** The one task the id names is moved and nothing else of it changes. */
  lemma DeferUniqueId(s: AppState, taskId: string, days: int, now: Instant, k: int)
    requires 0 <= k < |s.tasks| && s.tasks[k].id == taskId
    requires forall i :: 0 <= i < |s.tasks| && i != k ==> s.tasks[i].id != taskId
    ensures Deferred(s, taskId, days, now).tasks == s.tasks[k := s.tasks[k].(nextDue := AddDays(now, days))]
  {
    var f := FindTask(s.tasks, taskId);
    assert f.value == s.tasks[k];
  }

  /** `handleDeferTask`. */
  method HandleDefer(app: AppProvider, taskId: string, days: int, now: Instant)
    modifies app, app.store
    ensures app.state == Deferred(old(app.state), taskId, days, now)
    ensures FindTask(old(app.state.tasks), taskId).None? ==> app.store.data == old(app.store.data)
    ensures FindTask(old(app.state.tasks), taskId).Some? ==>
      app.store.data == old(app.store.data)[TasksKey := TaskList(app.state.tasks)]
  {
    var task := FindTask(app.state.tasks, taskId);
    if task.Some? {
      app.UpdateTaskAndSave(task.value.(nextDue := AddDays(now, days)));
    }
  }
}
