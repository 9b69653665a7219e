/** The basic reminder service of `src/services/notifications.ts`: one
    reminder per active task, `reminderDaysBefore` days ahead of the due
    date, suppressed when that instant is now or earlier. Its payloads carry
    no type. */
module Notifications {
  import opened Seqs
  import opened Types
  import opened Scheduler
  import NotificationsAdvanced

  /** `scheduleTaskNotification` as a value. */
  function TaskNotification(task: Task, item: Item, now: Instant): (r: Option<Payload>)
    ensures r.None? <==> task.nextDue - task.reminderDaysBefore * DAY <= now
    ensures r.Some? ==> r.value == Payload(Untyped, Some(task.id), item.id, task.nextDue - task.reminderDaysBefore * DAY)
    ensures r.Some? ==> r.value.fireAt > now
  {
    var fire := AddDays(task.nextDue, -task.reminderDaysBefore);
    if fire <= now then None else Some(Payload(Untyped, Some(task.id), item.id, fire))
  }

  /** The two services differ exactly at the boundary: a reminder due to fire
      at `now` is scheduled by the advanced one and suppressed by this one;
      anywhere else they agree on whether to schedule. */
  lemma BoundaryDiffers(task: Task, item: Item, now: Instant)
    ensures var fire := task.nextDue - task.reminderDaysBefore * DAY;
      && (fire == now ==> (TaskNotification(task, item, now).None?
            && NotificationsAdvanced.TaskReminder(task, item, now, task.reminderDaysBefore).Some?))
      && (fire != now ==> (TaskNotification(task, item, now).Some?
            <==> NotificationsAdvanced.TaskReminder(task, item, now, task.reminderDaysBefore).Some?))
  {
  }

  method ScheduleTaskNotification(s: NotificationScheduler, task: Task, item: Item, now: Instant)
    returns (id: Option<nat>)
    requires s.Valid()
    modifies s
    ensures s.Valid() && s.nextId >= old(s.nextId)
    ensures TaskNotification(task, item, now).None? ==> id.None? && s.entries == old(s.entries)
    ensures TaskNotification(task, item, now).Some? ==>
      && id == Some(old(s.nextId))
      && s.entries == old(s.entries) + [Entry(id.value, TaskNotification(task, item, now).value)]
  {
    var p := TaskNotification(task, item, now);
    if p.None? {
      return None;
    }
    var n := s.Schedule(p.value);
    id := Some(n);
  }

  /** `cancelNotification`: the entry with that id goes, nothing else. */
  method CancelNotification(s: NotificationScheduler, id: nat)
    requires s.Valid()
    modifies s
    ensures s.Valid()
    ensures s.entries == WithoutId(old(s.entries), id)
    ensures forall i :: 0 <= i < |old(s.entries)| && old(s.entries)[i].id != id ==> old(s.entries)[i] in s.entries
    ensures forall i :: 0 <= i < |s.entries| ==> s.entries[i].id != id
  {
    s.Cancel(id);
  }

  /** `new Map(items.map(item => [item.id, item]))`: a later item with the same
      id overwrites an earlier one. */
  function ItemMap(items: seq<Item>): map<string, Item>
  {
    if items == [] then map[]
    else ItemMap(items[..|items| - 1])[items[|items| - 1].id := items[|items| - 1]]
  }

  /** The map holds an id iff some item has it, and maps it to the last such
      item. */
  lemma {:induction false} ItemMapLookup(items: seq<Item>, id: string)
    ensures id in ItemMap(items) <==> exists i :: 0 <= i < |items| && items[i].id == id
    ensures id in ItemMap(items) ==> exists i :: (0 <= i < |items| && ItemMap(items)[id] == items[i]
      && items[i].id == id && forall j :: i < j < |items| ==> items[j].id != id)
    decreases |items|
  {
    if items != [] {
      var front := items[..|items| - 1];
      ItemMapLookup(front, id);
      var last := items[|items| - 1];
      if last.id != id && id in ItemMap(front) {
        var i :| 0 <= i < |front| && ItemMap(front)[id] == front[i]
          && front[i].id == id && forall j :: i < j < |front| ==> front[j].id != id;
        assert items[i] == front[i];
      }
      if (exists i :: 0 <= i < |items| && items[i].id == id) && last.id != id {
        var i :| 0 <= i < |items| && items[i].id == id;
        assert front[i] == items[i];
      }
    }
  }

  /** The map the loop of `scheduleAllTaskNotifications` builds. */
  method BuildItemMap(items: seq<Item>) returns (m: map<string, Item>)
    ensures m == ItemMap(items)
  {
    m := map[];
    var i := 0;
    while i < |items|
      invariant 0 <= i <= |items|
      invariant m == ItemMap(items[..i])
    {
      assert items[..i + 1][..i] == items[..i];
      m := m[items[i].id := items[i]];
      i := i + 1;
    }
    assert items[..i] == items;
  }

  /** The reminders the task loop produces, in task order. */
  function AllTaskNotifications(tasks: seq<Task>, items: seq<Item>, now: Instant): seq<Payload>
  {
    if tasks == [] then []
    else
      var t := tasks[|tasks| - 1];
      var front := AllTaskNotifications(tasks[..|tasks| - 1], items, now);
      if !t.isActive || t.itemId !in ItemMap(items) then front
      else match TaskNotification(t, ItemMap(items)[t.itemId], now)
        case None => front
        case Some(p) => front + [p]
  }

  /** Every reminder belongs to an active task whose item exists, carries that
      task's item id and fires after now. */
  lemma {:induction false} AllTaskNotificationsSound(tasks: seq<Task>, items: seq<Item>, now: Instant)
    ensures forall i :: 0 <= i < |AllTaskNotifications(tasks, items, now)| ==>
      var p := AllTaskNotifications(tasks, items, now)[i];
      && p.kind == Untyped && p.fireAt > now && p.itemId in ItemMap(items)
      && (exists j :: (0 <= j < |tasks| && tasks[j].isActive && Some(tasks[j].id) == p.taskId
            && tasks[j].itemId == p.itemId))
    decreases |tasks|
  {
    if tasks != [] {
      var front := tasks[..|tasks| - 1];
      AllTaskNotificationsSound(front, items, now);
      var r := AllTaskNotifications(tasks, items, now);
      var t := tasks[|tasks| - 1];
      forall i | 0 <= i < |r|
        ensures r[i].kind == Untyped && r[i].fireAt > now && r[i].itemId in ItemMap(items)
        ensures exists j :: (0 <= j < |tasks| && tasks[j].isActive && Some(tasks[j].id) == r[i].taskId
            && tasks[j].itemId == r[i].itemId)
      {
        if i < |AllTaskNotifications(front, items, now)| {
          var j :| 0 <= j < |front| && front[j].isActive && Some(front[j].id) == r[i].taskId
            && front[j].itemId == r[i].itemId;
          assert tasks[j] == front[j];
        } else {
          ItemMapLookup(items, t.itemId);
          assert tasks[|tasks| - 1].isActive;
        }
      }
    }
  }

  /** `scheduleAllTaskNotifications`: clear everything, build the item map,
      then schedule one reminder per active task whose item is in the map.
      What is left scheduled depends only on the tasks, the items and now, so
      a second run gives the same reminders again, not twice as many. */
  method ScheduleAllTaskNotifications(s: NotificationScheduler, tasks: seq<Task>, items: seq<Item>, now: Instant)
    requires s.Valid()
    modifies s
    ensures s.Valid()
    ensures s.Payloads() == AllTaskNotifications(tasks, items, now)
    ensures forall i :: 0 <= i < |s.entries| ==> s.entries[i].id >= old(s.nextId)
  {
    s.CancelAll();
    var start := s.nextId;
    var itemMap := BuildItemMap(items);
    var i := 0;
    while i < |tasks|
      invariant 0 <= i <= |tasks|
      invariant s.Valid() && s.nextId >= start
      invariant s.Payloads() == AllTaskNotifications(tasks[..i], items, now)
      invariant forall k :: 0 <= k < |s.entries| ==> s.entries[k].id >= start
    {
      assert tasks[..i + 1][..i] == tasks[..i];
      var task := tasks[i];
      if task.isActive && task.itemId in itemMap {
        var _ := ScheduleTaskNotification(s, task, itemMap[task.itemId], now);
      }
      i := i + 1;
    }
    assert tasks[..i] == tasks;
  }
}
