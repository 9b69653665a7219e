/** Creating and editing a task (`src/screens/tasks/AddEditTaskScreen.tsx`):
    the form's initial values, the two guards, and the record the save
    builds. */
module AddEditTask {
  import opened Seqs
  import opened Text
  import opened Types
  import opened AppContext
  import opened Store
  import opened CompleteTask

  /** The form's fields. `costText` is the estimated-cost text box. */
  datatype Form = Form(name: string, description: string, intervalDays: int, priority: Priority,
                       reminderDays: int, costText: string)

  /** The task being edited: editing is on when a non-empty task id was
      given; the task is looked up by that id and may be missing. */
  function ExistingTask(tasks: seq<Task>, taskId: Option<string>): (r: Option<Task>)
    ensures taskId.None? || taskId.value == "" ==> r.None?
    ensures r.Some? ==> r.value in tasks && Some(r.value.id) == taskId
    ensures taskId.Some? && taskId.value != "" ==> r == FindTask(tasks, taskId.value)
    ensures taskId.Some? && taskId.value != "" ==>
      (r.Some? <==> exists i :: 0 <= i < |tasks| && tasks[i].id == taskId.value)
  {
    if taskId.Some? && taskId.value != "" then FindTask(tasks, taskId.value) else None
  }

  /** The form's starting values: the edited task's, with `||` defaults, so
      a stored interval or reminder of 0 shows as 90 or 3. `show` is the
      number-to-text conversion of the cost. */
  function InitialForm(existing: Option<Task>, show: int -> string): (r: Form)
    ensures existing.None? ==> r == Form("", "", 90, Medium, 3, "")
    ensures existing.Some? ==> var t := existing.value;
      && r.name == t.name && r.priority == t.priority
      && r.intervalDays == (if t.intervalDays == 0 then 90 else t.intervalDays)
      && r.reminderDays == (if t.reminderDaysBefore == 0 then 3 else t.reminderDaysBefore)
      && r.description == (if t.description.Some? then t.description.value else "")
  {
    match existing
    case None => Form("", "", 90, Medium, 3, "")
    case Some(t) =>
      Form(t.name,
           if t.description.Some? then t.description.value else "",
           if t.intervalDays != 0 then t.intervalDays else 90,
           t.priority,
           if t.reminderDaysBefore != 0 then t.reminderDaysBefore else 3,
           if t.estimatedCost.Some? then show(t.estimatedCost.value) else "")
  }

  datatype SaveOutcome = BlankName | NoItem | Added(task: Task) | Updated(task: Task)

  /** The item the task belongs to: the route's item id, else the edited
      task's. */
  function TargetItem(itemId: Option<string>, existing: Option<Task>): Option<string>
  {
    if itemId.Some? && itemId.value != "" then itemId
    else if existing.Some? && existing.value.itemId != "" then Some(existing.value.itemId)
    else None
  }

  /** `handleSave` up to the write: the guards, then the task record. `freshId`
      is the generated id a new task gets. */
  function Save(form: Form, taskId: Option<string>, itemId: Option<string>, tasks: seq<Task>,
                freshId: string, now: Instant, parse: string -> Option<int>): (r: SaveOutcome)
    ensures r == BlankName <==> IsBlank(form.name)
    ensures r == NoItem <==> !IsBlank(form.name) && TargetItem(itemId, ExistingTask(tasks, taskId)).None?
    ensures (r.Added? || r.Updated?) ==>
      && r.task.name == Trim(form.name) && r.task.name != []
      && (r.task.description.None? <==> IsBlank(form.description))
      && r.task.intervalDays == form.intervalDays && r.task.priority == form.priority
      && r.task.reminderDaysBefore == form.reminderDays
      && Some(r.task.itemId) == TargetItem(itemId, ExistingTask(tasks, taskId))
      && r.task.estimatedCost == ParsedCost(form.costText, parse)
    ensures r.Added? <==> !IsBlank(form.name) && TargetItem(itemId, ExistingTask(tasks, taskId)).Some?
                          && (taskId.None? || taskId.value == "")
  {
    TrimEmptyIffBlank(form.name);
    var existing := ExistingTask(tasks, taskId);
    var target := TargetItem(itemId, existing);
    if Trim(form.name) == [] then BlankName
    else if target.None? then NoItem
    else
      var editing := taskId.Some? && taskId.value != "";
      var task := Task(
        if editing then taskId.value else freshId,
        target.value,
        Trim(form.name),
        TrimmedOrAbsent(form.description),
        form.intervalDays,
        if existing.Some? then existing.value.lastCompleted else None,
        if existing.Some? then existing.value.nextDue else AddDays(now, form.intervalDays),
        form.reminderDays,
        form.priority,
        ParsedCost(form.costText, parse),
        None,
        if existing.Some? then existing.value.isActive else true);
      if editing then Updated(task) else Added(task)
  }

  /** A new task gets the fresh id, is due one interval from now and is active. */
  lemma NewTaskFields(form: Form, itemId: string, tasks: seq<Task>, freshId: string, now: Instant,
                      parse: string -> Option<int>)
    requires !IsBlank(form.name) && itemId != ""
    ensures var r := Save(form, None, Some(itemId), tasks, freshId, now, parse);
      && r.Added? && r.task.id == freshId && r.task.itemId == itemId
      && r.task.nextDue == AddDays(now, form.intervalDays)
      && r.task.isActive && r.task.lastCompleted.None?
  {
  }

  /** An edit keeps the task's id, due date, completion and active flag, even
      when the interval changes. */
  lemma EditKeepsSchedule(form: Form, existing: Task, itemId: Option<string>, tasks: seq<Task>,
                          freshId: string, now: Instant, parse: string -> Option<int>)
    requires !IsBlank(form.name) && existing.itemId != "" && existing.id != ""
    requires FindTask(tasks, existing.id) == Some(existing)
    ensures var r := Save(form, Some(existing.id), itemId, tasks, freshId, now, parse);
      && r.Updated? && r.task.id == existing.id
      && r.task.nextDue == existing.nextDue
      && r.task.lastCompleted == existing.lastCompleted
      && r.task.isActive == existing.isActive
  {
  }

  /** The editing form opened on a saved task and saved unchanged gives back
      the task's schedule fields. */
  lemma EditRoundTrip(existing: Task, tasks: seq<Task>, freshId: string, now: Instant,
                      show: int -> string, parse: string -> Option<int>)
    requires existing.id != "" && existing.itemId != "" && !IsBlank(existing.name)
    requires existing.intervalDays != 0 && existing.reminderDaysBefore != 0
    requires FindTask(tasks, existing.id) == Some(existing)
    ensures var r := Save(InitialForm(Some(existing), show), Some(existing.id), None, tasks, freshId, now, parse);
      && r.Updated?
      && r.task.id == existing.id && r.task.itemId == existing.itemId
      && r.task.intervalDays == existing.intervalDays && r.task.priority == existing.priority
      && r.task.reminderDaysBefore == existing.reminderDaysBefore
      && r.task.nextDue == existing.nextDue && r.task.isActive == existing.isActive
  {
  }

  /** `handleSave`: a rejected save writes nothing; otherwise the task is
      added or updated through the provider. */
  method HandleSave(app: AppProvider, form: Form, taskId: Option<string>, itemId: Option<string>,
                    freshId: string, now: Instant, parse: string -> Option<int>)
    returns (outcome: SaveOutcome)
    modifies app, app.store
    ensures outcome == Save(form, taskId, itemId, old(app.state.tasks), freshId, now, parse)
    ensures outcome.BlankName? || outcome.NoItem? ==>
      app.state == old(app.state) && app.store.data == old(app.store.data)
    ensures outcome.Added? ==> app.state == Reduce(old(app.state), AddTask(outcome.task))
    ensures outcome.Updated? ==> app.state == Reduce(old(app.state), UpdateTask(outcome.task))
    ensures outcome.Added? || outcome.Updated? ==>
      app.store.data == old(app.store.data)[TasksKey := TaskList(app.state.tasks)]
  {
    outcome := Save(form, taskId, itemId, app.state.tasks, freshId, now, parse);
    match outcome
    case Added(t) => app.AddTaskAndSave(t);
    case Updated(t) => app.UpdateTaskAndSave(t);
    case BlankName =>
    case NoItem =>
  }
}
