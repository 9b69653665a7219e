/** Reminder scheduling of `src/services/notifications-advanced.ts`: task
    reminders `daysBefore` days ahead of the due date, warranty reminders 30
    days ahead of the expiry, cancellation by task or item, and the full
    reschedule. A reminder whose fire instant is strictly before now is not
    scheduled; one firing exactly now is. */
module NotificationsAdvanced {
  import opened Seqs
  import opened Types
  import opened Scheduler

  /** `subDays(due, daysBefore)`. */
  function FireAt(due: Instant, daysBefore: int): Instant
  {
    AddDays(due, -daysBefore)
  }

  /** `scheduleTaskReminder` as a value: the payload it schedules, or None. */
  function TaskReminder(task: Task, item: Item, now: Instant, daysBefore: int := 3): (r: Option<Payload>)
    ensures r.None? <==> FireAt(task.nextDue, daysBefore) < now
    ensures r.Some? ==> r.value == Payload(TaskReminderKind, Some(task.id), item.id, task.nextDue - daysBefore * DAY)
    ensures r.Some? ==> r.value.fireAt >= now
  {
    var fire := FireAt(task.nextDue, daysBefore);
    if fire < now then None else Some(Payload(TaskReminderKind, Some(task.id), item.id, fire))
  }

  /** `scheduleWarrantyExpiryReminder` as a value. */
  function WarrantyReminder(item: Item, now: Instant, daysBefore: int := 30): (r: Option<Payload>)
    ensures item.warrantyExpiry.None? ==> r.None?
    ensures item.warrantyExpiry.Some? ==>
      (r.None? <==> item.warrantyExpiry.value - daysBefore * DAY < now)
    ensures r.Some? ==> r.value == Payload(WarrantyReminderKind, None, item.id, item.warrantyExpiry.value - daysBefore * DAY)
  {
    match item.warrantyExpiry
    case None => None
    case Some(expiry) =>
      var fire := FireAt(expiry, daysBefore);
      if fire < now then None else Some(Payload(WarrantyReminderKind, None, item.id, fire))
  }

  /** The boundary: a reminder due to fire exactly now is still scheduled. */
  lemma FireNowIsScheduled(task: Task, item: Item, daysBefore: int)
    ensures TaskReminder(task, item, FireAt(task.nextDue, daysBefore), daysBefore).Some?
  {
  }

  method ScheduleTaskReminder(s: NotificationScheduler, task: Task, item: Item, now: Instant, daysBefore: int := 3)
    returns (id: Option<nat>)
    requires s.Valid()
    modifies s
    ensures s.Valid() && s.nextId >= old(s.nextId)
    ensures TaskReminder(task, item, now, daysBefore).None? ==> id.None? && s.entries == old(s.entries)
    ensures TaskReminder(task, item, now, daysBefore).Some? ==>
      && id == Some(old(s.nextId))
      && s.entries == old(s.entries) + [Entry(id.value, TaskReminder(task, item, now, daysBefore).value)]
  {
    var p := TaskReminder(task, item, now, daysBefore);
    if p.None? {
      return None;
    }
    var n := s.Schedule(p.value);
    id := Some(n);
  }

  method ScheduleWarrantyReminder(s: NotificationScheduler, item: Item, now: Instant, daysBefore: int := 30)
    returns (id: Option<nat>)
    requires s.Valid()
    modifies s
    ensures s.Valid() && s.nextId >= old(s.nextId)
    ensures WarrantyReminder(item, now, daysBefore).None? ==> id.None? && s.entries == old(s.entries)
    ensures WarrantyReminder(item, now, daysBefore).Some? ==>
      && id == Some(old(s.nextId))
      && s.entries == old(s.entries) + [Entry(id.value, WarrantyReminder(item, now, daysBefore).value)]
  {
    var p := WarrantyReminder(item, now, daysBefore);
    if p.None? {
      return None;
    }
    var n := s.Schedule(p.value);
    id := Some(n);
  }

  /** One step of the walk: the first `i + 1` entries filtered are the
      first `i` filtered and then entry `i` if it is kept. */
  lemma {:induction false} FilterStep(snapshot: seq<Entry>, i: int, keep: Entry -> bool)
    requires 0 <= i < |snapshot|
    ensures Filter(snapshot[..i + 1], keep) ==
      Filter(snapshot[..i], keep) + (if keep(snapshot[i]) then [snapshot[i]] else [])
  {
    assert snapshot[..i + 1][..i] == snapshot[..i];
  }

  /** Moving the walk's cursor one entry forward. */
  lemma {:induction false} ShiftOne<T>(front: seq<T>, snapshot: seq<T>, i: int)
    requires 0 <= i < |snapshot|
    ensures front + snapshot[i..] == front + [snapshot[i]] + snapshot[i + 1..]
  {
    assert snapshot[i..] == [snapshot[i]] + snapshot[i + 1..];
  }

  /** Passing over an entry that is kept. */
  lemma {:induction false} KeepStep(entries: seq<Entry>, snapshot: seq<Entry>, i: int, keep: Entry -> bool)
    requires 0 <= i < |snapshot| && keep(snapshot[i])
    requires entries == Filter(snapshot[..i], keep) + snapshot[i..]
    ensures entries == Filter(snapshot[..i + 1], keep) + snapshot[i + 1..]
  {
    FilterStep(snapshot, i, keep);
    ShiftOne(Filter(snapshot[..i], keep), snapshot, i);
  }

  /** Passing over an entry that is not kept leaves the filtered front as it is. */
  lemma {:induction false} DropStep(snapshot: seq<Entry>, i: int, keep: Entry -> bool)
    requires 0 <= i < |snapshot| && !keep(snapshot[i])
    ensures Filter(snapshot[..i + 1], keep) == Filter(snapshot[..i], keep)
  {
    FilterStep(snapshot, i, keep);
  }

  /** What cancelling the entry at position `i` of the walk leaves. */
  lemma {:induction false} CancelStep(entries: seq<Entry>, snapshot: seq<Entry>, i: int, keep: Entry -> bool)
    requires 0 <= i < |snapshot| && !keep(snapshot[i])
    requires Increasing(entries) && entries == Filter(snapshot[..i], keep) + snapshot[i..]
    ensures WithoutId(entries, snapshot[i].id) == Filter(snapshot[..i + 1], keep) + snapshot[i + 1..]
  {
    var before := Filter(snapshot[..i], keep);
    ShiftOne(before, snapshot, i);
    FilterOneId(before, snapshot[i], snapshot[i + 1..]);
    DropStep(snapshot, i, keep);
  }

  /** Cancelling the entry at position `i` of the walk. */
  method CancelAt(s: NotificationScheduler, snapshot: seq<Entry>, i: int, keep: Entry -> bool)
    requires 0 <= i < |snapshot| && !keep(snapshot[i])
    requires s.Valid() && s.entries == Filter(snapshot[..i], keep) + snapshot[i..]
    modifies s
    ensures s.Valid() && s.nextId == old(s.nextId)
    ensures s.entries == Filter(snapshot[..i + 1], keep) + snapshot[i + 1..]
  {
    CancelStep(s.entries, snapshot, i, keep);
    s.Cancel(snapshot[i].id);
  }

  /** Walk a snapshot of the scheduled entries and cancel, one by one, those
      not to `keep`. */
  method CancelUnless(s: NotificationScheduler, keep: Entry -> bool)
    requires s.Valid()
    modifies s
    ensures s.Valid() && s.nextId == old(s.nextId)
    ensures s.entries == Filter(old(s.entries), keep)
  {
    var snapshot := s.entries;
    var i := 0;
    while i < |snapshot|
      invariant 0 <= i <= |snapshot|
      invariant s.Valid() && s.nextId == old(s.nextId)
      invariant s.entries == Filter(snapshot[..i], keep) + snapshot[i..]
    {
      if !keep(snapshot[i]) {
        CancelAt(s, snapshot, i, keep);
      } else {
        KeepStep(s.entries, snapshot, i, keep);
      }
      i := i + 1;
    }
    assert snapshot[..i] == snapshot;
  }

  /** `cancelTaskNotifications`: exactly the entries about that task go. */
  method CancelTaskNotifications(s: NotificationScheduler, taskId: string)
    requires s.Valid()
    modifies s
    ensures s.Valid()
    ensures s.entries == Filter(old(s.entries), (e: Entry) => e.payload.taskId != Some(taskId))
  {
    CancelUnless(s, (e: Entry) => e.payload.taskId != Some(taskId));
  }

  /** `cancelItemNotifications`: exactly the entries about that item go,
      warranty reminders included. */
  method CancelItemNotifications(s: NotificationScheduler, itemId: string)
    requires s.Valid()
    modifies s
    ensures s.Valid()
    ensures s.entries == Filter(old(s.entries), (e: Entry) => e.payload.itemId != itemId)
  {
    CancelUnless(s, (e: Entry) => e.payload.itemId != itemId);
  }

  /** One row of `getScheduledNotifications`: missing ids read as "". */
  datatype Scheduled = Scheduled(id: nat, taskId: string, itemId: string)

  /** `getScheduledNotifications`: one row per scheduled entry, in order. */
  function ScheduledNotifications(entries: seq<Entry>): (r: seq<Scheduled>)
    ensures |r| == |entries|
    ensures forall i :: 0 <= i < |entries| ==>
      && r[i].id == entries[i].id && r[i].itemId == entries[i].payload.itemId
      && r[i].taskId == (match entries[i].payload.taskId case Some(t) => t case None => "")
  {
    Map(entries, (e: Entry) => Scheduled(e.id, match e.payload.taskId case Some(t) => t case None => "",
                                         e.payload.itemId))
  }

  /** A warranty reminder lists with an empty task id, so it is told apart
      from a task reminder by that field. */
  lemma WarrantyRowsHaveNoTask(s: NotificationScheduler, item: Item, now: Instant, id: Option<nat>)
    requires s.Valid()
    requires WarrantyReminder(item, now).Some? && id.Some?
    requires Entry(id.value, WarrantyReminder(item, now).value) in s.entries
    ensures exists i :: 0 <= i < |s.entries| && ScheduledNotifications(s.entries)[i] == Scheduled(id.value, "", item.id)
  {
    var i :| 0 <= i < |s.entries| && s.entries[i] == Entry(id.value, WarrantyReminder(item, now).value);
    assert ScheduledNotifications(s.entries)[i] == Scheduled(id.value, "", item.id);
  }

  /** The reminders the task loop of the reschedule produces, in task order. */
  function TaskReminders(tasks: seq<Task>, items: seq<Item>, now: Instant): seq<Payload>
  {
    if tasks == [] then []
    else
      var t := tasks[|tasks| - 1];
      var front := TaskReminders(tasks[..|tasks| - 1], items, now);
      if !t.isActive then front
      else match FindItem(items, t.itemId)
        case None => front
        case Some(item) =>
          match TaskReminder(t, item, now, t.reminderDaysBefore)
          case None => front
          case Some(p) => front + [p]
  }

  /** The warranty reminders of the item loop, in item order. */
  function WarrantyReminders(items: seq<Item>, now: Instant): seq<Payload>
  {
    if items == [] then []
    else
      var front := WarrantyReminders(items[..|items| - 1], now);
      match WarrantyReminder(items[|items| - 1], now)
      case None => front
      case Some(p) => front + [p]
  }

  /** Everything a reschedule leaves scheduled. */
  function Rescheduled(tasks: seq<Task>, items: seq<Item>, now: Instant): seq<Payload>
  {
    TaskReminders(tasks, items, now) + WarrantyReminders(items, now)
  }

  /** Every task reminder belongs to an active task whose item exists, fires
      no earlier than now, and carries that task's and item's ids. */
  lemma {:induction false} TaskRemindersSound(tasks: seq<Task>, items: seq<Item>, now: Instant)
    ensures forall i :: 0 <= i < |TaskReminders(tasks, items, now)| ==>
      var p := TaskReminders(tasks, items, now)[i];
      && p.kind == TaskReminderKind && p.taskId.Some? && p.fireAt >= now
      && (exists j :: 0 <= j < |tasks| && tasks[j].isActive && Some(tasks[j].id) == p.taskId
            && tasks[j].itemId == p.itemId && FindItem(items, p.itemId).Some?)
    decreases |tasks|
  {
    if tasks != [] {
      var front := tasks[..|tasks| - 1];
      TaskRemindersSound(front, items, now);
      var r := TaskReminders(tasks, items, now);
      forall i | 0 <= i < |r|
        ensures exists j :: (0 <= j < |tasks| && tasks[j].isActive && Some(tasks[j].id) == r[i].taskId
            && tasks[j].itemId == r[i].itemId && FindItem(items, r[i].itemId).Some?)
      {
        if i < |TaskReminders(front, items, now)| {
          var j :| 0 <= j < |front| && front[j].isActive && Some(front[j].id) == r[i].taskId
            && front[j].itemId == r[i].itemId && FindItem(items, r[i].itemId).Some?;
          assert tasks[j] == front[j];
        } else {
          assert tasks[|tasks| - 1].isActive;
        }
      }
    }
  }

  /** An inactive task, or one whose item is gone, never gets a reminder. */
  lemma {:induction false} NoReminderForInactiveOrOrphan(tasks: seq<Task>, items: seq<Item>, now: Instant, id: string)
    requires forall j :: 0 <= j < |tasks| && tasks[j].id == id ==>
      !tasks[j].isActive || FindItem(items, tasks[j].itemId).None?
    ensures forall i :: 0 <= i < |TaskReminders(tasks, items, now)| ==>
      TaskReminders(tasks, items, now)[i].taskId != Some(id)
  {
    TaskRemindersSound(tasks, items, now);
  }

  /** `rescheduleAllNotifications`: cancel everything, then schedule the task
      reminders and the warranty reminders. The result depends only on the
      tasks, the items and now, so running it twice schedules the same
      reminders once, not twice. */
  method RescheduleAll(s: NotificationScheduler, tasks: seq<Task>, items: seq<Item>, now: Instant)
    requires s.Valid()
    modifies s
    ensures s.Valid()
    ensures s.Payloads() == Rescheduled(tasks, items, now)
    ensures forall i :: 0 <= i < |s.entries| ==> s.entries[i].id >= old(s.nextId)
  {
    s.CancelAll();
    ScheduleTaskLoop(s, tasks, items, now, s.nextId);
    ScheduleWarrantyLoop(s, items, now, old(s.nextId));
  }

  /** The reschedule's loop over the tasks: a reminder for each active task
      whose item exists, unless it would fire in the past. Identifiers stay
      at or above `floor`. */
  method ScheduleTaskLoop(s: NotificationScheduler, tasks: seq<Task>, items: seq<Item>, now: Instant, ghost floor: nat)
    requires s.Valid() && s.nextId >= floor
    requires forall k :: 0 <= k < |s.entries| ==> s.entries[k].id >= floor
    modifies s
    ensures s.Valid() && s.nextId >= floor
    ensures forall k :: 0 <= k < |s.entries| ==> s.entries[k].id >= floor
    ensures s.Payloads() == old(s.Payloads()) + TaskReminders(tasks, items, now)
  {
    var i := 0;
    while i < |tasks|
      invariant 0 <= i <= |tasks|
      invariant s.Valid() && s.nextId >= floor
      invariant s.Payloads() == old(s.Payloads()) + TaskReminders(tasks[..i], items, now)
      invariant forall k :: 0 <= k < |s.entries| ==> s.entries[k].id >= floor
    {
      assert tasks[..i + 1][..i] == tasks[..i];
      var task := tasks[i];
      if task.isActive {
        var item := FindItem(items, task.itemId);
        if item.Some? {
          var _ := ScheduleTaskReminder(s, task, item.value, now, task.reminderDaysBefore);
        }
      }
      i := i + 1;
    }
    assert tasks[..i] == tasks;
  }

  /** The reschedule's loop over the items: a warranty reminder for each item
      with an expiry, unless it would fire in the past. */
  method ScheduleWarrantyLoop(s: NotificationScheduler, items: seq<Item>, now: Instant, ghost floor: nat)
    requires s.Valid() && s.nextId >= floor
    requires forall k :: 0 <= k < |s.entries| ==> s.entries[k].id >= floor
    modifies s
    ensures s.Valid() && s.nextId >= floor
    ensures forall k :: 0 <= k < |s.entries| ==> s.entries[k].id >= floor
    ensures s.Payloads() == old(s.Payloads()) + WarrantyReminders(items, now)
  {
    var j := 0;
    while j < |items|
      invariant 0 <= j <= |items|
      invariant s.Valid() && s.nextId >= floor
      invariant s.Payloads() == old(s.Payloads()) + WarrantyReminders(items[..j], now)
      invariant forall k :: 0 <= k < |s.entries| ==> s.entries[k].id >= floor
    {
      assert items[..j + 1][..j] == items[..j];
      if items[j].warrantyExpiry.Some? {
        var _ := ScheduleWarrantyReminder(s, items[j], now);
      }
      j := j + 1;
    }
    assert items[..j] == items;
  }

  /** Two reschedules in a row leave the same reminders as one. */
  method RescheduleTwice(s: NotificationScheduler, tasks: seq<Task>, items: seq<Item>, now: Instant)
    requires s.Valid()
    modifies s
    ensures s.Valid()
    ensures s.Payloads() == Rescheduled(tasks, items, now)
  {
    RescheduleAll(s, tasks, items, now);
    RescheduleAll(s, tasks, items, now);
  }
}
