/** Marking a task done (`src/screens/tasks/CompleteTaskScreen.tsx`): one log
    entry is appended, then the task gets its completion instant and, when it
    recurs, a new due date one interval after the completion. */
module CompleteTask {
  import opened Seqs
  import opened Text
  import opened Types
  import opened Dates
  import opened AppContext
  import opened Store

  /** `s.trim() || undefined`: the trimmed text, absent when it is blank. */
  function TrimmedOrAbsent(s: string): (r: Option<string>)
    ensures r.None? <==> IsBlank(s)
    ensures r.Some? ==> r.value == Trim(s) && r.value != []
  {
    TrimEmptyIffBlank(s);
    if Trim(s) == [] then None else Some(Trim(s))
  }

  /** `cost ? parseFloat(cost) : undefined`; `parse` stands for `parseFloat`,
      giving None where it would give NaN. */
  function ParsedCost(costText: string, parse: string -> Option<int>): (r: Option<int>)
    ensures costText == "" ==> r.None?
    ensures costText != "" ==> r == parse(costText)
  {
    if costText == "" then None else parse(costText)
  }

  /** The log the form produces for `task` completed at `now`. */
  function CompletionLog(task: Task, logId: string, now: Instant, costText: string,
                         parse: string -> Option<int>, provider: string, notes: string): (r: Log)
    ensures r.taskId == task.id && r.itemId == task.itemId && r.completedAt == now
    ensures r.cost == ParsedCost(costText, parse)
    ensures r.provider.None? <==> IsBlank(provider)
    ensures r.notes.None? <==> IsBlank(notes)
    ensures r.receiptUri.None?
  {
    Log(logId, task.id, task.itemId, now, ParsedCost(costText, parse),
        TrimmedOrAbsent(provider), TrimmedOrAbsent(notes), None)
  }

  /** The task after completion at `now`. */
  function CompletedTask(task: Task, now: Instant): (r: Task)
    ensures r.lastCompleted == Some(now)
    ensures task.intervalDays > 0 ==> r.nextDue == AddDays(now, task.intervalDays)
    ensures task.intervalDays <= 0 ==> r.nextDue == task.nextDue
    ensures r.(lastCompleted := task.lastCompleted, nextDue := task.nextDue) == task
  {
    task.(lastCompleted := Some(now),
          nextDue := if task.intervalDays > 0 then AddDays(now, task.intervalDays) else task.nextDue)
  }

  /** A recurring task is no longer overdue once completed, however late. */
  lemma RecurringCompletionNotOverdue(task: Task, now: Instant, later: Instant)
    requires task.intervalDays > 0
    requires now <= later < AddDays(now, task.intervalDays)
    ensures !IsOverdue(CompletedTask(task, now).nextDue, later)
  {
  }

  /** A one-time task that was overdue stays overdue after completion. */
  lemma OneTimeCompletionStaysOverdue(task: Task, now: Instant, later: Instant)
    requires task.intervalDays == 0
    requires IsOverdue(task.nextDue, now) && now <= later
    ensures IsOverdue(CompletedTask(task, now).nextDue, later)
  {
  }

  /** The state after a completion: the log, then the task update. */
  function AfterCompletion(s: AppState, task: Task, log: Log, now: Instant): AppState
  {
    Reduce(Reduce(s, AddLog(log)), UpdateTask(CompletedTask(task, now)))
  }

  /** Completion adds exactly one log, last, and changes no item; the tasks
      keep their number and only those with the completed id change. */
  lemma CompletionEffects(s: AppState, task: Task, log: Log, now: Instant)
    ensures var r := AfterCompletion(s, task, log, now);
      && r.logs == s.logs + [log]
      && r.items == s.items
      && |r.tasks| == |s.tasks|
      && (forall i :: 0 <= i < |s.tasks| && s.tasks[i].id != task.id ==> r.tasks[i] == s.tasks[i])
      && (forall i :: 0 <= i < |s.tasks| && s.tasks[i].id == task.id ==> r.tasks[i] == CompletedTask(task, now))
  {
  }

  /** `handleComplete` behind the not-found guard: nothing happens unless the
      task and its owning item both exist; otherwise the log is added and
      saved, then the task is updated and saved. */
  method HandleComplete(app: AppProvider, taskId: string, logId: string, now: Instant,
                        costText: string, parse: string -> Option<int>, provider: string, notes: string)
    returns (done: bool)
    modifies app, app.store
    ensures var t := FindTask(old(app.state.tasks), taskId);
      done <==> t.Some? && FindItem(old(app.state.items), t.value.itemId).Some?
    ensures !done ==> app.state == old(app.state) && app.store.data == old(app.store.data)
    ensures done ==> var t := FindTask(old(app.state.tasks), taskId).value;
      app.state == AfterCompletion(old(app.state), t,
        CompletionLog(t, logId, now, costText, parse, provider, notes), now)
    ensures done ==>
      app.store.data == old(app.store.data)[LogsKey := LogList(app.state.logs)][TasksKey := TaskList(app.state.tasks)]
  {
    var task := FindTask(app.state.tasks, taskId);
    if task.None? {
      return false;
    }
    var item := FindItem(app.state.items, task.value.itemId);
    if item.None? {
      return false;
    }
    var log := CompletionLog(task.value, logId, now, costText, parse, provider, notes);
    SaveCompletion(app, task.value, log, now);
    done := true;
  }

  /** The two writes of a completion: the log is added and saved, then the
      task is updated and saved. */
  method SaveCompletion(app: AppProvider, task: Task, log: Log, now: Instant)
    modifies app, app.store
    ensures app.state == AfterCompletion(old(app.state), task, log, now)
    ensures app.store.data == old(app.store.data)[LogsKey := LogList(app.state.logs)][TasksKey := TaskList(app.state.tasks)]
  {
    app.AddLogAndSave(log);
    ghost var logged := app.state;
    app.UpdateTaskAndSave(CompletedTask(task, now));
    ReduceFrame(logged, UpdateTask(CompletedTask(task, now)));
  }
}
