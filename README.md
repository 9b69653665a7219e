# Maintenance Minder Pro: a verified model of the scheduling core

This project models, in Dafny, the maintenance-scheduling and bookkeeping logic of Maintenance Minder Pro, a mobile app. The app tracks items (cars, homes, appliances), recurring maintenance tasks on them, and a log of completed maintenance. The model covers:

- **Due dates**: the overdue and due-soon predicates, the whole days until a due date, and the recurrence rule that sets the next due date (`Dates`).
- **Task lifecycle**: built-in templates per item type and their expansion into tasks (`Templates`); creating and editing a task (`AddEditTask`); completing one (`CompleteTask`); deferring one from the dashboard (`Dashboard`).
- **Application state**: the reducer over items, tasks and logs, with its cascade delete, and the provider wrappers that persist what the reducer computes (`AppContext`, over the key-value store `Store`).
- **Reminders**: both reminder services (`NotificationsAdvanced`, `Notifications`). Both run over an abstract scheduler that keeps records and hands out identifiers (`Scheduler`). Each service keeps its own boundary rule for a reminder that would fire exactly now.
- **Validation and text helpers**: form validators (`Validation`), text helpers (`Helpers`), and the icon classifiers (`Mappings`).
- **Local storage services**: sync bookkeeping and the last-write-wins merge (`Sync`); the rotating list of at most ten backups, with restore and import (`Backup`).
- **Derived views**:
  - analytics counters (`Analytics`);
  - the task list's search, filter and sort (`TasksScreen`);
  - item and task cards (`ItemCard`, `TaskCard`);
  - the warranty tracker (`Warranty`);
  - global search (`GlobalSearch`);
  - the service-provider directory (`Providers`);
  - the fourteen-day agenda (`Upcoming`);
  - the grouped history (`History`);
  - the yearly summary with its month streak (`YearInReview`).

Modelling conventions:

- Instants are integer milliseconds and the clock is an explicit `now`. `addDays(t, n)` is `t + n * DAY`, and `differenceInDays` truncates toward zero.
- Costs are whole cents.
- Calendar functions (start and end of a month, the day key of an instant, month numbering, collation) are parameters.
- JavaScript's `sort` is a stable sort by an integer key (`Sorting`).
- Counting with a `Map` is a per-key accumulator that keeps first-occurrence order (`Tally`). The year-in-review screen counts in a plain object instead, so its listing follows `Object.entries`: keys that are array indices (`"2"`, `"10"`) come first in ascending numeric order, then the other keys in creation order (`YearInReview.ObjectEntries`).
- JavaScript's `length` counts UTF-16 code units: a character beyond U+FFFF, such as an emoji, counts two (`Text.Utf16Length`).
- Pure source code is modelled as functions. Loops that push or count are methods whose loop invariants tie them to those functions. State that the source mutates lives in classes: the key-value store, the notification scheduler, the app provider and the providers screen.

## Model

| member | source | states |
|---|---|---|
| Dates.TruncDiv | src/utils/dates.ts:37-39 | the quotient rounds toward zero: for a non-negative dividend it is the floor, for a negative one the ceiling, as `differenceInDays` counts only whole days |
| Dates.DaysUntilDue | src/utils/dates.ts:37-39 | the days until the due instant, in whole days rounded toward zero, bracket the distance: `r` days fit in it and `r + 1` do not (mirrored for past due dates) |
| Dates.NextDueDate | src/utils/dates.ts:18-24 | with no last completion, or a zero interval, the next due date is now; otherwise it lies exactly `intervalDays` days after the last completion (later for a positive interval, earlier for a negative one) |
| Dates.OverdueExcludesDueSoon | src/utils/dates.ts:26-35 | no due date is both overdue and due soon, whatever the window |
| Dates.DueNowIsNeither | src/utils/dates.ts:26-35 | a task due exactly now is neither overdue nor due soon |
| Dates.DueSoonMonotone | src/utils/dates.ts:30-35 | widening the due-soon window never drops a task that was due soon |
| Dates.NegativeDaysMeansOverdue | src/utils/dates.ts:26-39 | a negative day count only happens for overdue tasks, and every task overdue by a full day or more shows a negative count |
| Dates.DueSoonDays | src/utils/dates.ts:30-39 | a task due soon within the default seven days shows between 0 and 6 days until due |
| Helpers.Greeting | src/utils/helpers.ts:7-12 | 'Good morning' exactly before 12, 'Good afternoon' exactly from 12 to before 17, 'Good evening' exactly from 17 |
| Helpers.Substring0 | src/utils/helpers.ts:21-24 | `substring(0, end)` is a prefix of the text whose length is the end clamped to `[0, length]` |
| Helpers.TruncateText | src/utils/helpers.ts:21-24 | text that fits is returned unchanged; longer text becomes a prefix of it followed by '...', of length `maxLength` (at least 3) |
| Helpers.TruncateIdempotent | src/utils/helpers.ts:21-24 | with `maxLength >= 3` the result fits in `maxLength`, and truncating it again changes nothing |
| Helpers.CapitalizeFirst | src/utils/helpers.ts:26-28 | same length; the first character upper-cased and every later character unchanged |
| Helpers.Pluralize | src/utils/helpers.ts:30-33 | the singular for a count of exactly one; otherwise the given non-empty plural, or the singular followed by 's' |
| Helpers.PluralizeSingularIff | src/utils/helpers.ts:30-33 | without an explicit plural, the word comes back unchanged exactly when the count is one |
| Mappings.IconForItemType | src/utils/mappings.ts:122-124 | 'car', 'home' and 'flash' for the three known kinds; 'ellipse' for 'other' and for any other text that is not the name of an `Object.prototype` member |
| Mappings.IconForTask | src/utils/mappings.ts:127-138 | the icon is one of the seven task icons; it is 'checkmark-circle' exactly when the lower-cased name contains none of the seven keywords; otherwise it is the icon of the first keyword found in the order oil, tire, filter, clean, inspect, replace or change |
| Mappings.IconForTaskCaseInsensitive | src/utils/mappings.ts:128 | names that differ only in letter case get the same icon |
| Mappings.IconForTaskPrecedence | src/utils/mappings.ts:130-135 | a name mentioning 'filter' but neither 'oil' nor 'tire' gets 'filter', whatever later keywords it also mentions |
| Mappings.AirFilterReplacement | src/utils/mappings.ts:132-135 | the built-in 'Air Filter Replacement' task gets the 'filter' icon, not 'refresh', since 'filter' is checked first |
| Templates.TemplatesForType | src/services/templates.ts:67-78 | 'car', 'home' and 'appliance' select their tables of 15, 16 and 15 templates; any other kind gets no templates |
| Templates.CreateTasksFromTemplates | src/services/templates.ts:80-98 | one task per template, in order, for the given item, each with the template's name, description, interval and priority, due `intervalDays` days after now, with the given reminder days and active |
| Templates.BuiltInIntervalsPositive | src/services/templates.ts:12-65 | every built-in template has a positive interval |
| Templates.BuiltInTasksDueLater | src/services/templates.ts:80-98 | every task created from a built-in table falls due strictly after now and is active |
| AppContext.ReplaceItem | src/context/AppContext.tsx:23-29 | same length; every item with the payload's id becomes the payload and every other item stays in its place |
| AppContext.ReplaceTask | src/context/AppContext.tsx:40-46 | same length; every task with the payload's id becomes the payload and every other task stays in its place |
| AppContext.ReduceFrame | src/context/AppContext.tsx:15-65 | every action leaves each state field it does not write unchanged; an action that writes nothing returns the state as it was |
| AppContext.AddAppends | src/context/AppContext.tsx:21-22 | ADD_ITEM, ADD_TASK and ADD_LOG grow their list by one, keep the old list as a prefix and put the payload last |
| AppContext.UpdateTaskInPlace | src/context/AppContext.tsx:40-46 | UPDATE_TASK keeps the length, changes nothing when no task has the id, and a position holds the payload exactly when it had that id or already held the payload |
| AppContext.UpdateItemInPlace | src/context/AppContext.tsx:23-29 | the same for UPDATE_ITEM on items |
| AppContext.DeleteItemCascades | src/context/AppContext.tsx:30-35 | DELETE_ITEM leaves no item with the id and no task of that item, keeps every other item and task, and leaves the logs untouched |
| AppContext.DeleteTaskExact | src/context/AppContext.tsx:47-51 | DELETE_TASK leaves no task with the id, keeps every other task, and leaves items and logs untouched |
| AppContext.LoadAllDataOverlays | src/context/AppContext.tsx:60-61 | LOAD_ALL_DATA takes each field the payload carries (items, tasks, logs, settings, onboarding flag), keeps each field it lacks, and always ends loading |
| AppContext.AppProvider.constructor | src/context/AppContext.tsx:6-13 | the provider starts from the initial state: empty lists, default settings, loading, onboarding not complete |
| AppContext.AppProvider.LoadAll | src/context/AppContext.tsx:90-108 | a successful load dispatches LOAD_ALL_DATA with the five stored values (defaults where absent, and a stored `{}` settings value as `{}`); a failure only ends loading; either way loading ends |
| AppContext.LoadedSettings | src/services/storage.ts:36-39 | the stored settings value, the empty object included, and the defaults only when the key is absent |
| AppContext.EmptySettingsLoadEmpty | src/services/storage.ts:36-39 | a stored `{}` loads as `{}`, not as the defaults; a missing key loads the defaults |
| AppContext.AppProvider.AddItemAndSave | src/context/AppContext.tsx:110-113 | the state is the reducer's result for ADD_ITEM and the store's items key holds the new item list; nothing else in the store changes |
| AppContext.AppProvider.UpdateItemAndSave | src/context/AppContext.tsx:115-119 | the state is the reducer's result for UPDATE_ITEM and the items key holds the updated list |
| AppContext.AppProvider.DeleteItemAndSave | src/context/AppContext.tsx:121-127 | the state is the reducer's result for DELETE_ITEM; the items and tasks keys are rewritten and the logs key is not |
| AppContext.AppProvider.AddTaskAndSave | src/context/AppContext.tsx:129-132 | the state is the reducer's result for ADD_TASK and the tasks key holds the new task list |
| AppContext.AppProvider.UpdateTaskAndSave | src/context/AppContext.tsx:134-138 | the state is the reducer's result for UPDATE_TASK and the tasks key holds the updated list |
| AppContext.AppProvider.DeleteTaskAndSave | src/context/AppContext.tsx:140-144 | the state is the reducer's result for DELETE_TASK and the tasks key holds the filtered list |
| AppContext.AppProvider.AddLogAndSave | src/context/AppContext.tsx:146-149 | the state is the reducer's result for ADD_LOG and the logs key holds the new log list |
| AppContext.AppProvider.UpdateSettingsAndSave | src/context/AppContext.tsx:151-154 | the state is the reducer's result for SET_SETTINGS and the settings key holds the new settings |
| AppContext.AppProvider.CompleteOnboarding | src/context/AppContext.tsx:156-159 | the state is the reducer's result for SET_ONBOARDING_COMPLETE with true and the onboarding key holds true |
| Backup.BackupIn | src/services/backup.ts:80-83 | a backup is found exactly when its data key holds backup data |
| Backup.Rotated | src/services/backup.ts:69 | the new metadata comes first, followed by a prefix of the old list, and the list never exceeds ten entries |
| Backup.RotatedDropsOldest | src/services/backup.ts:69 | adding to a full list of ten drops exactly its last, oldest entry |
| Backup.CreateBackup | src/services/backup.ts:27-73 | returns the metadata of a snapshot of the four stored collections; the store gains the snapshot under `@mmp_backup_backup_<stamp>` and the rotated list |
| Backup.CreatedKeyIsFresh | src/services/backup.ts:52-57 | a new backup's data key is neither the list key nor one of the four collection keys |
| Backup.CreateBackupList | src/services/backup.ts:60-70 | after a backup the list starts with its metadata, continues with a prefix of the earlier list and holds at most ten; the counts are those of the stored items and tasks |
| Backup.RestoreBackup | src/services/backup.ts:85-102 | succeeds exactly when the backup exists; then the four collection keys hold the backup's values; otherwise the store is unchanged |
| Backup.BackupRestoreRoundTrip | src/services/backup.ts:27-102 | restoring a backup just created gives back the items, tasks, logs and settings stored when it was made |
| Backup.DeleteBackup | src/services/backup.ts:104-110 | the data key is removed, then the list as read back is stored without that id |
| Backup.DeleteBackupEffects | src/services/backup.ts:104-110 | after deleting, that backup is gone and the list holds exactly the other entries in their order |
| Backup.DeleteListIdEmptiesList | src/services/backup.ts:104-110 | deleting the id 'list', whose data key is the list key itself, leaves an empty backup list |
| Backup.ImportBackupFromString | src/services/backup.ts:130-150 | the import succeeds exactly when the text parses and carries items, tasks and logs arrays; a rejected import writes nothing |
| Backup.ImportEffects | src/services/backup.ts:138-143 | an accepted import stores the imported items, tasks and logs; it stores the settings only when the payload has them and otherwise keeps the stored settings |
| CompleteTask.TrimmedOrAbsent | src/screens/tasks/CompleteTaskScreen.tsx:48-49 | the field is absent exactly when the text is blank, and otherwise holds the non-empty trimmed text |
| CompleteTask.ParsedCost | src/screens/tasks/CompleteTaskScreen.tsx:47 | an empty cost text gives no cost; any other text gives what the number parser makes of it |
| CompleteTask.CompletionLog | src/screens/tasks/CompleteTaskScreen.tsx:42-50 | the log names the task and its item, is stamped now, carries the parsed cost, and has a provider and notes exactly when those fields are not blank |
| CompleteTask.CompletedTask | src/screens/tasks/CompleteTaskScreen.tsx:55-61 | the task is last completed now; a recurring task falls due `intervalDays` days from now, any other keeps its due date; no other field changes |
| CompleteTask.RecurringCompletionNotOverdue | src/screens/tasks/CompleteTaskScreen.tsx:58-60 | a recurring task completed now is not overdue at any later time within its interval, however late it was |
| CompleteTask.OneTimeCompletionStaysOverdue | src/screens/tasks/CompleteTaskScreen.tsx:58-60 | a one-time task that was overdue is still overdue after it is completed, since its due date is kept |
| CompleteTask.CompletionEffects | src/screens/tasks/CompleteTaskScreen.tsx:52-63 | completion appends exactly one log, changes no item, keeps the number of tasks and replaces only the tasks with the completed id |
| CompleteTask.HandleComplete | src/screens/tasks/CompleteTaskScreen.tsx:19-63 | something happens exactly when the task and its item both exist; then the state is the log added and the task updated, and the store holds the new logs and tasks with every other key unchanged; otherwise state and store are unchanged |
| CompleteTask.SaveCompletion | src/screens/tasks/CompleteTaskScreen.tsx:52-63 | `addLog` then `updateTask`: the state gains the log and the completed task, and the store holds the new logs and tasks with every other key unchanged |
| Dashboard.SectionsDisjointAndActive | src/screens/dashboard/DashboardScreen.tsx:25-27 | the overdue section holds only active overdue tasks, the due-soon section only active tasks due within the week, and no task is in both |
| Dashboard.Shown | src/screens/dashboard/DashboardScreen.tsx:100 | a section shows a prefix of its tasks of at most five, and all of them when it has five or fewer |
| Dashboard.DeferEffects | src/screens/dashboard/DashboardScreen.tsx:45-51 | deferring changes only the due date of the tasks with that id, to `days` days from now; items, logs and every other task are unchanged; an unknown id changes nothing |
| Dashboard.DeferUniqueId | src/screens/dashboard/DashboardScreen.tsx:45-51 | when one task has the id, the task list is the old one with just that task's due date moved |
| Dashboard.HandleDefer | src/screens/dashboard/DashboardScreen.tsx:45-51 | the new state is the deferred state; with an unknown id the store is not written, and with a known one the store holds the new tasks with every other key unchanged |
| AddEditTask.ExistingTask | src/screens/tasks/AddEditTaskScreen.tsx:19-23 | without a non-empty task id there is no edited task; with one, the edited task is the first task with that id, and there is one exactly when some task has that id |
| AddEditTask.InitialForm | src/screens/tasks/AddEditTaskScreen.tsx:26-31 | a new form starts blank with a 90-day interval, medium priority and 3 reminder days; an edit form takes the task's values, with those defaults wherever the task's value is zero or empty |
| AddEditTask.Save | src/screens/tasks/AddEditTaskScreen.tsx:34-67 | a blank name is rejected first, then a missing item; otherwise the task is added when not editing and updated when editing, and carries the trimmed name and the target item |
| AddEditTask.NewTaskFields | src/screens/tasks/AddEditTaskScreen.tsx:49-61 | a new task gets the fresh id and the given item, falls due one interval from now, is active and has never been completed |
| AddEditTask.EditKeepsSchedule | src/screens/tasks/AddEditTaskScreen.tsx:49-61 | an edit keeps the task's id, due date, last completion and active flag, even when the interval changes |
| AddEditTask.EditRoundTrip | src/screens/tasks/AddEditTaskScreen.tsx:26-61 | opening a saved task for editing and saving it unchanged gives back its id, item, interval, priority, reminder days, due date and active flag |
| AddEditTask.HandleSave | src/screens/tasks/AddEditTaskScreen.tsx:34-75 | the outcome is that of `Save`; a rejected save changes neither state nor store; an added task goes through ADD_TASK and an edited one through UPDATE_TASK, and then the store holds the new tasks with every other key unchanged |
| Scheduler.NotificationScheduler.Schedule | src/services/notifications.ts:54-66 | scheduling appends one entry whose identifier is larger than every earlier one, and the identifiers stay increasing |
| Scheduler.NotificationScheduler.Cancel | src/services/notifications.ts:73-75 | cancelling drops the entries with that identifier and keeps the rest in order |
| Scheduler.NotificationScheduler.CancelAll | src/services/notifications.ts:77-79 | cancelling everything leaves no entry and does not reuse identifiers |
| Notifications.TaskNotification | src/services/notifications.ts:41-71 | no reminder exactly when the reminder instant (due date minus the reminder days) is not after now; otherwise the reminder fires at that instant, strictly after now, and names the task and its item |
| Notifications.BoundaryDiffers | src/services/notifications.ts:50 | this service and the advanced one disagree only for a reminder that would fire exactly now, which only the advanced one schedules |
| Notifications.ScheduleTaskNotification | src/services/notifications.ts:41-71 | schedules exactly the reminder `TaskNotification` gives, returning its fresh identifier, and otherwise schedules nothing and returns none |
| Notifications.CancelNotification | src/services/notifications.ts:73-75 | the entry with that identifier is removed and every other entry kept |
| Notifications.ItemMapLookup | src/services/notifications.ts:87 | the item map holds an id exactly when some item has it, and maps it to the last item with that id |
| Notifications.BuildItemMap | src/services/notifications.ts:87 | the map built item by item is the item map |
| Notifications.AllTaskNotificationsSound | src/services/notifications.ts:89-96 | every reminder scheduled by the loop fires after now and belongs to an active task whose item exists |
| Notifications.ScheduleAllTaskNotifications | src/services/notifications.ts:81-97 | after clearing, the scheduled reminders are exactly those of the active tasks with an existing item, in task order, all with identifiers never used before |
| NotificationsAdvanced.TaskReminder | src/services/notifications-advanced.ts:54-90 | no reminder exactly when the reminder instant is strictly before now; otherwise a task reminder naming the task and its item that fires `daysBefore` days before the due date, not before now |
| NotificationsAdvanced.WarrantyReminder | src/services/notifications-advanced.ts:92-127 | no reminder for an item without a warranty expiry or whose reminder instant is past; otherwise a warranty reminder for the item, with no task, firing `daysBefore` days before expiry |
| NotificationsAdvanced.FireNowIsScheduled | src/services/notifications-advanced.ts:64 | a reminder due to fire exactly now is still scheduled |
| NotificationsAdvanced.ScheduleTaskReminder | src/services/notifications-advanced.ts:54-90 | schedules exactly the reminder `TaskReminder` gives and returns its fresh identifier, or schedules nothing and returns none |
| NotificationsAdvanced.ScheduleWarrantyReminder | src/services/notifications-advanced.ts:92-127 | schedules exactly the reminder `WarrantyReminder` gives and returns its fresh identifier, or schedules nothing and returns none |
| NotificationsAdvanced.CancelUnless | src/services/notifications-advanced.ts:131-138 | walking a snapshot of the scheduled entries and cancelling those not kept leaves exactly the kept entries, in order |
| NotificationsAdvanced.CancelTaskNotifications | src/services/notifications-advanced.ts:129-142 | exactly the entries about that task are cancelled; the others stay in order |
| NotificationsAdvanced.CancelItemNotifications | src/services/notifications-advanced.ts:144-157 | exactly the entries about that item are cancelled, task and warranty reminders alike |
| NotificationsAdvanced.ScheduledNotifications | src/services/notifications-advanced.ts:159-176 | one row per scheduled entry, in order, with its identifier and its task and item ids, a missing one read as empty text |
| NotificationsAdvanced.WarrantyRowsHaveNoTask | src/services/notifications-advanced.ts:163-171 | a scheduled warranty reminder is listed with an empty task id |
| NotificationsAdvanced.TaskRemindersSound | src/services/notifications-advanced.ts:194-201 | every task reminder of the reschedule belongs to an active task whose item exists and fires no earlier than now |
| NotificationsAdvanced.NoReminderForInactiveOrOrphan | src/services/notifications-advanced.ts:194-201 | a task that is inactive, or whose item is gone, gets no reminder |
| NotificationsAdvanced.RescheduleAll | src/services/notifications-advanced.ts:186-209 | after a reschedule the scheduled reminders are the task reminders in task order followed by the warranty reminders in item order, all with fresh identifiers |
| NotificationsAdvanced.ScheduleTaskLoop | src/services/notifications-advanced.ts:194-201 | the loop over the tasks appends exactly the task reminders, in task order, to what is already scheduled, and every identifier stays at or above the floor it was given |
| NotificationsAdvanced.ScheduleWarrantyLoop | src/services/notifications-advanced.ts:204-208 | the loop over the items appends exactly the warranty reminders, in item order, to what is already scheduled, and every identifier stays at or above the floor it was given |
| NotificationsAdvanced.RescheduleTwice | src/services/notifications-advanced.ts:186-209 | rescheduling twice leaves the same reminders as rescheduling once |
| Validation.ValidateRequired | src/utils/validation.ts:8-16 | valid exactly when the value is present and not blank, and valid exactly when there are no errors; otherwise the one message '<field> is required' |
| Validation.EmailPatternIffShape | src/utils/validation.ts:23 | the e-mail pattern accepts exactly the addresses with no whitespace, exactly one '@' with text before it, and a '.' after the '@' with text on both sides |
| Validation.ValidateEmail | src/utils/validation.ts:18-31 | an empty address is valid; a non-empty one is valid exactly when it has the e-mail shape; a refusal carries the one e-mail message |
| Validation.Cleaned | src/utils/validation.ts:39 | the cleaned number holds no whitespace, '-', '(', ')' or '.', and keeps every other character of the input |
| Validation.ValidatePhone | src/utils/validation.ts:33-48 | an empty number is valid; a non-empty one is valid exactly when its cleaned form is 10 to 15 digits; a refusal carries the one phone message |
| Validation.PlusRejected | src/utils/validation.ts:39-41 | a number written with a leading '+' is refused, since '+' is not stripped and is not a digit |
| Validation.FormattingIgnored | src/utils/validation.ts:39 | inserting a formatting character anywhere into a non-empty number does not change the verdict |
| Validation.ValidateItem | src/utils/validation.ts:81-102 | 'Name is required' exactly when the name is missing or blank, 'Name must be less than 100 characters' exactly when its length in UTF-16 code units is over 100, in that order; valid exactly when neither applies |
| Validation.EmojiNameTooLong | src/utils/validation.ts:94 | a name of sixty emoji is over the limit, since each emoji counts two |
| Text.Utf16Length | src/utils/validation.ts:94 | the UTF-16 length lies between the number of characters and twice it, and equals it when no character is beyond U+FFFF |
| Text.AstralRunLength | src/utils/validation.ts:94 | a run of n characters beyond U+FFFF has length 2n |
| Validation.ValidateTask | src/utils/validation.ts:104-133 | one message each, in order, exactly when the name is missing, the interval is negative, or a given cost does not parse or is negative; valid exactly when there is none |
| Validation.ValidateProvider | src/utils/validation.ts:135-163 | one message each, in order, exactly when the name is missing, a given e-mail is refused, or a given phone number is refused; valid exactly when there is none |
| Sync.MergeData | src/services/sync.ts:142-157 | the merge is one of the two copies: the cloud copy exactly when its sync time is strictly later, the local copy on a tie or when the local one is later |
| Sync.MergeLatestAndStable | src/services/sync.ts:142-157 | the merged copy carries the later of the two sync times, and merging the same cloud copy again changes nothing |
| Sync.Unsynced | src/services/sync.ts:125-139 | never synced counts as unsynced; otherwise unsynced exactly when the last sync is more than five minutes before now |
| Sync.UnsyncedBoundary | src/services/sync.ts:136-138 | a sync exactly five minutes ago still counts as synced, one millisecond more does not |
| Sync.StoredDeviceId | src/services/sync.ts:25-26 | a stored device id is non-empty text held under the device-id key |
| Sync.GetDeviceId | src/services/sync.ts:24-31 | returns the stored id when there is one and leaves the store alone; otherwise stores and returns a new non-empty 'device_' id; the store changes in the device-id key at most |
| Sync.GetDeviceIdTwice | src/services/sync.ts:24-31 | asking twice gives the same id, and with an id already stored nothing is written |
| Sync.DeviceIdFor | src/services/sync.ts:24-31 | the device id is never empty and is the stored one whenever an id is stored |
| Sync.WithDeviceId | src/services/sync.ts:24-31 | afterwards the stored id is that device id; every other key is unchanged, and with an id already stored nothing changes |
| Sync.GetLastSyncInfo | src/services/sync.ts:67-80 | the cached sync time, absent without a cache; the cached device id, or this device's id when the cache has none or an empty one; the only store change is recording this device's id when none was stored |
| Sync.HasUnsyncedChanges | src/services/sync.ts:125-139 | true without a cached sync; otherwise the five-minute rule applied to the cached time; the only store change is recording this device's id when none was stored |
| Sync.KeysDistinct | src/services/sync.ts:20-21 | the sync cache key, the device-id key and the four collection keys are pairwise distinct |
| Sync.SaveSyncData | src/services/sync.ts:53-64 | the store holds the four collections and the sync record of the data and is otherwise unchanged |
| Sync.GetDataForSync | src/services/sync.ts:34-50 | the snapshot holds the stored collections (empty when absent), the stored settings, now as the sync time and this device's id (the stored one if any); the only store change is recording that id when none was stored |
| Sync.SyncRoundTrip | src/services/sync.ts:34-64 | reading back saved sync data gives its collections and settings, the cache records its sync time and device, and it counts as synced at that time |
| Analytics.ActiveCount | src/utils/analytics.ts:44 | the number of active tasks equals the length of the dashboard's active list |
| Analytics.OverdueCount | src/utils/analytics.ts:45 | the overdue count equals the length of the dashboard's overdue list and never exceeds the active count |
| Analytics.OverviewOf | src/utils/analytics.ts:131-139 | totals are the collection lengths; active and overdue are the active tasks and the active tasks due before now; overdue ≤ active ≤ total |
| Analytics.ByType | src/utils/analytics.ts:107-115 | the reduce yields the per-type counter built from one (type, 1) pair per item, in order of first appearance |
| Analytics.TypePairsSum | src/utils/analytics.ts:107-115 | the pairs of one type add up to the number of items of that type, and all pairs add up to the number of items |
| Analytics.ByTypeFacts | src/utils/analytics.ts:107-115 | the entries are the item types without repeats, each count is the number of items of that type and at least one, and the counts add up to the number of items |
| Analytics.CountTypePositive | src/utils/analytics.ts:108-112 | a type that some item has is counted at least once |
| Analytics.ByCategory | src/utils/analytics.ts:69-80 | the forEach yields the per-category sum built from the costs of logs whose item exists and whose cost is non-zero |
| Analytics.CategoryPairsSum | src/utils/analytics.ts:71-77 | the category pairs add up to total spending minus the spending on logs of deleted items |
| Analytics.ByCategorySum | src/utils/analytics.ts:69-80 | the categories together cost exactly the total spending less the spending on deleted items, and no category appears twice |
| Analytics.ByCategoryKeys | src/utils/analytics.ts:72-75 | every category is the type of an existing item that some log with a non-zero cost refers to |
| Analytics.CategoryPairSource | src/utils/analytics.ts:71-77 | each category pair comes from one log of the list |
| Analytics.MostCommonTasks | src/utils/analytics.ts:93-104 | the result is the per-task-name counter sorted by descending count and cut to ten |
| Analytics.TaskNamePairsSum | src/utils/analytics.ts:94-100 | the pairs of one name add up to the logs of existing tasks with that name; all pairs add up to the logs whose task exists |
| Analytics.MostCommonTasksFacts | src/utils/analytics.ts:101-104 | at most ten entries, counts non-increasing, each count the number of logs of existing tasks with that name and at least one; before the cut the counts add up to the logs whose task exists, so logs of deleted tasks are skipped |
| Analytics.NamedPositive | src/utils/analytics.ts:95-98 | a name that is counted has at least one log |
| Analytics.ItemLabel | src/utils/analytics.ts:125 | a deleted item is labelled 'Unknown', and a label is never empty |
| Analytics.MostMaintained | src/utils/analytics.ts:118-129 | the result is the per-item-id counter, labelled with item names, sorted by descending count and cut to five |
| Analytics.ItemIdPairsSum | src/utils/analytics.ts:119-122 | the pairs of one item id add up to that item's number of logs |
| Analytics.LabelledCount | src/utils/analytics.ts:123-127 | every counted item id is the item id of some log, and its labelled entry carries that item's label and its number of logs |
| Analytics.MostMaintainedFacts | src/utils/analytics.ts:123-129 | at most five entries, counts non-increasing, each one the label and log count of the item of some log |
| Analytics.DeletedItemCountedAsUnknown | src/utils/analytics.ts:125 | the logs of a deleted item are still counted, under 'Unknown' |
| Analytics.CountOfItemPositive | src/utils/analytics.ts:119-122 | the item of any log has at least one log |
| Analytics.ByMonth | src/utils/analytics.ts:54-66 | six entries, oldest window first, each the month name and the spending of the window thirty days per step back from the current month's start |
| Analytics.ByMonthChronological | src/utils/analytics.ts:55-56 | consecutive windows start thirty days apart, and the last starts at the current month's start |
| Analytics.SpendWithinMonotone | src/utils/analytics.ts:58-64 | with no negative costs, a window's spending is at most a wider window's and at most the total spending |
| Analytics.CountWithinMonotone | src/utils/analytics.ts:83-90 | widening a window never lowers its count, which is at most the number of logs |
| Analytics.LastMonthMissesFirstDay | src/utils/analytics.ts:40 | a log completed on the first instant of the previous month is not counted as written and is counted by the whole-month window |
| Analytics.LastMonthCountsWholeMonth | src/utils/analytics.ts:87-90 | the whole-month count is never below the count as written |
| Analytics.GenerateAnalytics | src/utils/analytics.ts:33-157 | every field of the report is the corresponding part above; the previous month is counted whole; the total spending is the sum of all log costs, and the per-category totals add up to it less the spending on deleted items |
| TasksScreen.PriorityRank | src/screens/tasks/TasksScreen.tsx:55-56 | the rank lies in 0..3 and is 0 exactly for critical |
| TasksScreen.FilteredTasks | src/screens/tasks/TasksScreen.tsx:23-65 | the list is the selected tasks sorted by the chosen key |
| TasksScreen.SelectedIff | src/screens/tasks/TasksScreen.tsx:24-47 | a task is listed exactly when it is active, matches the lower-cased search on its name, description or item name (any task when the search is empty) and passes the status filter |
| TasksScreen.FilteredTasksOrdered | src/screens/tasks/TasksScreen.tsx:50-62 | the sorted list is a permutation of the selection; by date due instants do not decrease, by priority critical precedes high precedes medium precedes low, by name the collation keys do not decrease |
| TasksScreen.EmptySearchKeepsAll | src/screens/tasks/TasksScreen.tsx:27 | an empty search narrows nothing: the selection is the active tasks passing the filter |
| TasksScreen.ChipCountsMatchFilters | src/screens/tasks/TasksScreen.tsx:83-87 | each chip's count is exactly the number of tasks its filter lists with an empty search |
| TaskCard.DueText | src/components/TaskCard.tsx:22-27 | the text is non-empty and starts with a digit exactly when the task is overdue, with 'D' otherwise |
| TaskCard.NumeralsEqual | src/components/TaskCard.tsx:23-26 | two decimal numerals that read the same have the same value |
| TaskCard.DueTextInjective | src/components/TaskCard.tsx:22-27 | different day counts always give different texts |
| TaskCard.DueFormsDiffer | src/components/TaskCard.tsx:24-26 | 'Due today', 'Due tomorrow' and 'Due in n days' never coincide for different counts |
| TaskCard.OverdueYetDueToday | src/components/TaskCard.tsx:18-24 | a task less than a day late is styled overdue yet reads 'Due today', since days are counted toward zero |
| TaskCard.OverdueTextMeansOverdue | src/components/TaskCard.tsx:18-23 | a text starting with a day count is shown only for overdue tasks |
| TaskCard.TaskCardView | src/components/TaskCard.tsx:17-55 | overdue styling and the alert icon exactly when overdue; the task's name; the item's name exactly when an item is passed; the complete control exactly when a handler is passed; and the due text of the whole-day count |
| ItemCard.NextTask | src/components/ItemCard.tsx:17-19 | none exactly when the item has no active task; otherwise an active task of the item with the earliest due instant among them |
| ItemCard.NextTaskFacts | src/components/ItemCard.tsx:18-19 | sorting the item's tasks by due instant keeps their number and puts first one of them that is due no later than any other |
| ItemCard.NextTaskIgnoresOthers | src/components/ItemCard.tsx:17 | adding a task of another item, or an inactive one, does not change the next task |
| ItemCard.StatusTone | src/components/ItemCard.tsx:21-26 | muted exactly without a next task, danger exactly when it is overdue, warning exactly when it is due soon and not overdue, the ok colour otherwise |
| ItemCard.StatusText | src/components/ItemCard.tsx:28-35 | 'No tasks' exactly without a next task, otherwise the task card's due text for its whole days until due |
| ItemCard.NoTasksIff | src/components/ItemCard.tsx:17-29 | the card reads 'No tasks' exactly when the item has no active task |
| Warranty.Track | src/screens/warranty/WarrantyTrackerScreen.tsx:21-33 | the record keeps the item, its day count is the whole days until the warranty expiry rounded toward zero, and it is marked expired exactly when the count is negative, that is when the expiry lies a full day or more in the past |
| Warranty.TrackAll | src/screens/warranty/WarrantyTrackerScreen.tsx:21-33 | one record per item, in order |
| Warranty.ItemsWithWarrantyFacts | src/screens/warranty/WarrantyTrackerScreen.tsx:18-35 | exactly the items with an expiry are listed, one record per such item, soonest expiry first |
| Warranty.CountsPartition | src/screens/warranty/WarrantyTrackerScreen.tsx:37-38 | expired, expiring-within-thirty-days and the remainder shown as active add up to the list, and the remainder counts exactly the warranties with more than thirty days left, so it is never negative |
| Warranty.StatusTone | src/screens/warranty/WarrantyTrackerScreen.tsx:40-45 | danger exactly when expired, warning exactly for at most thirty days left, primary for 31 to 90, secondary beyond |
| Warranty.MonthsLeftText | src/screens/warranty/WarrantyTrackerScreen.tsx:52-53 | past thirty days the text gives m months left with m at least one and 30m ≤ days < 30(m+1) |
| Warranty.StatusTextCases | src/screens/warranty/WarrantyTrackerScreen.tsx:47-51 | 'Expired' exactly for an expired warranty, and the number of days when two to thirty are left |
| Warranty.AgeOf | src/screens/warranty/WarrantyTrackerScreen.tsx:56-74 | no age without a purchase date; days under a month, months under a year, and otherwise an age standing for exactly the months since purchase |
| Warranty.AgeSplit | src/screens/warranty/WarrantyTrackerScreen.tsx:68-73 | a year or more splits into at least one whole year and either no remainder or 1 to 11 months, adding back up to the months |
| Warranty.SingularMonth | src/screens/warranty/WarrantyTrackerScreen.tsx:66 | one month reads '1 month old' |
| Warranty.SingularYear | src/screens/warranty/WarrantyTrackerScreen.tsx:71 | one year reads '1 year old' |
| Warranty.PluralMonths | src/screens/warranty/WarrantyTrackerScreen.tsx:66 | any count of more than one month is worded in the plural |
| Warranty.ElevenMonthsPlural | src/screens/warranty/WarrantyTrackerScreen.tsx:65-67 | eleven months, a two-digit count, reads '11 months old' |
| GlobalSearch.ItemIcon | src/utils/constants.ts:23-28 | car, home, appliance and other items get the car, home, cube and ellipse icons |
| GlobalSearch.OrElse | src/components/GlobalSearchModal.tsx:64 | `x \|\| fallback`: the value when present and non-empty, the fallback otherwise |
| GlobalSearch.ItemSubtitle | src/components/GlobalSearchModal.tsx:43 | an item's subtitle is never empty |
| GlobalSearch.HitsAreMatches | src/components/GlobalSearchModal.tsx:33-100 | one `forEach` pushes exactly the results of the matching elements, once each and in collection order |
| GlobalSearch.PushItemHits | src/components/GlobalSearchModal.tsx:33-51 | the item loop appends the hits of the matching items to what was found |
| GlobalSearch.PushTaskHits | src/components/GlobalSearchModal.tsx:54-74 | the task loop appends the hits of the tasks matching by name or description |
| GlobalSearch.PushLogHits | src/components/GlobalSearchModal.tsx:77-100 | the log loop appends the hits of the logs matching by notes, provider or task name |
| GlobalSearch.Search | src/components/GlobalSearchModal.tsx:26-103 | the result is the cut list of hits: none for a query shorter than two UTF-16 code units, never more than twenty |
| GlobalSearch.EmojiQuerySearches | src/components/GlobalSearchModal.tsx:27 | a single emoji already has length two, so it starts a search |
| GlobalSearch.ResultsOrdered | src/components/GlobalSearchModal.tsx:102 | results are grouped items, then tasks, then logs, and the cut keeps min(20, number of matching items) item hits |
| GlobalSearch.ResultsAreMatches | src/components/GlobalSearchModal.tsx:29-102 | for a query of two or more UTF-16 code units the results are the first twenty of the matching items', tasks' and logs' results, in that order |
| GlobalSearch.SubtitleFallsBackToType | src/components/GlobalSearchModal.tsx:43 | without brand and model the subtitle is the item's type |
| GlobalSearch.SubtitleIsBrand | src/components/GlobalSearchModal.tsx:43 | with a brand free of surrounding whitespace and no model, the joining space is trimmed and the subtitle is the brand |
| Upcoming.UpcomingStep | src/screens/upcoming/UpcomingScreen.tsx:35-37 | one more day adds its bucket exactly when it has tasks or is one of the first three |
| Upcoming.UpcomingByDay | src/screens/upcoming/UpcomingScreen.tsx:18-41 | the loop over fourteen days builds exactly the buckets of the shown days, in order |
| Upcoming.KeptBounds | src/screens/upcoming/UpcomingScreen.tsx:23-38 | the kept day offsets are below the horizon, at least their position, and strictly increasing |
| Upcoming.KeptIff | src/screens/upcoming/UpcomingScreen.tsx:35 | a day below the horizon is kept exactly when it is shown |
| Upcoming.KeptFirstThree | src/screens/upcoming/UpcomingScreen.tsx:35 | the first three days are always kept and come first |
| Upcoming.BucketDay | src/screens/upcoming/UpcomingScreen.tsx:36 | bucket j is the bucket of the j-th kept day, whose offset is at least j, with that day's start and tasks |
| Upcoming.TasksForDayIff | src/screens/upcoming/UpcomingScreen.tsx:27-33 | a task is in a day's list exactly when it is active and due within that day; the list is a sorted permutation of the filtered tasks |
| Upcoming.DaysDisjoint | src/screens/upcoming/UpcomingScreen.tsx:24-31 | no due instant falls within two different days |
| Upcoming.UpcomingShape | src/screens/upcoming/UpcomingScreen.tsx:23-38 | between three and fourteen buckets, the first three being today, tomorrow and the day after, dates strictly increasing |
| Upcoming.KeptShape | src/screens/upcoming/UpcomingScreen.tsx:23-38 | whatever days hold tasks, keeping the first three days always gives between three and fourteen day offsets, the first three being 0, 1 and 2, in strictly increasing order |
| Upcoming.LaterDayShownIff | src/screens/upcoming/UpcomingScreen.tsx:35 | a day after the first three gets a bucket exactly when it holds a task |
| Upcoming.EachTaskAtMostOnce | src/screens/upcoming/UpcomingScreen.tsx:27-36 | no task sits in two buckets |
| Upcoming.OutsideHorizonNowhere | src/screens/upcoming/UpcomingScreen.tsx:24-31 | a task due before today or after the fourteenth day sits in no bucket |
| Upcoming.DayLabelAt | src/screens/upcoming/UpcomingScreen.tsx:43-48 | 'Today' exactly for index 0, 'Tomorrow' for 1, a weekday for 2 to 6 and a date from 7 on |
| Upcoming.OffsetOfDay | src/screens/upcoming/UpcomingScreen.tsx:24 | the start of day k lies k whole days from today |
| Upcoming.LabelTruthful | src/screens/upcoming/UpcomingScreen.tsx:43-48 | labelled by distance, 'Today' and 'Tomorrow' name exactly those days and a bare weekday is used only within the coming week |
| Upcoming.FirstThreeLabelsAgree | src/screens/upcoming/UpcomingScreen.tsx:107 | for the three days always shown, positional and distance labels agree |
| Upcoming.PositionalLabelMisnamesDistantDay | src/screens/upcoming/UpcomingScreen.tsx:107 | a lone task due in ten days sits fourth and gets only a weekday from the screen, where the distance label gives its date (see Findings) |
| Upcoming.OnlyDayTenKept | src/screens/upcoming/UpcomingScreen.tsx:35 | with one task due in ten days the kept days are 0, 1, 2 and 10 |
| Upcoming.AnyTasksIff | src/screens/upcoming/UpcomingScreen.tsx:65 | some bucket holds a task exactly when an active task falls due within the fourteen days |
| Providers.TypeIcon | src/screens/providers/ProvidersScreen.tsx:138-141 | each of the five named provider types gets its `PROVIDER_TYPES` icon, and any other text 'person' |
| Providers.OptionalField | src/screens/providers/ProvidersScreen.tsx:77-81 | absent exactly when the text is blank, otherwise the trimmed text |
| Providers.KeptOr | src/screens/providers/ProvidersScreen.tsx:74 | the edited record's field when it is non-empty, the fallback when nothing is edited |
| Providers.Built | src/screens/providers/ProvidersScreen.tsx:73-83 | trimmed name, the chosen type, optional fields absent when blank, no rating; an edit keeps the record's id and creation time, a new record gets the new id and the current time |
| Providers.SaveResult | src/screens/providers/ProvidersScreen.tsx:67-90 | nothing is saved exactly when the name is blank |
| Providers.AddAppends | src/screens/providers/ProvidersScreen.tsx:88-90 | adding appends exactly the built record, with the new id, and keeps the list before it |
| Providers.EditReplaces | src/screens/providers/ProvidersScreen.tsx:86-87 | editing keeps the length, replaces exactly the records with the edited id by the built record and leaves every other record in place |
| Providers.EditKeepsIds | src/screens/providers/ProvidersScreen.tsx:74-87 | editing a record with an id leaves every id of the list as it was |
| Providers.DeleteRemovesExactly | src/screens/providers/ProvidersScreen.tsx:103 | no record with the id remains, every other record is kept, and nothing is added |
| Providers.DeleteMissingId | src/screens/providers/ProvidersScreen.tsx:103 | deleting an id no record has leaves the list unchanged |
| Providers.DeleteIdempotent | src/screens/providers/ProvidersScreen.tsx:103 | deleting twice is deleting once |
| Providers.OrEmpty | src/screens/providers/ProvidersScreen.tsx:129-133 | an absent field shows as empty text, a present one as itself |
| Providers.ProvidersScreen.constructor | src/screens/providers/ProvidersScreen.tsx:37-48 | the list starts empty, the form blank, nothing edited, the form hidden |
| Providers.ProvidersScreen.Load | src/screens/providers/ProvidersScreen.tsx:55-60 | a stored list replaces the list; with nothing stored the list stays |
| Providers.ProvidersScreen.Save | src/screens/providers/ProvidersScreen.tsx:62-65 | the new list is both stored and set; the form is untouched |
| Providers.ProvidersScreen.ResetForm | src/screens/providers/ProvidersScreen.tsx:114-124 | the form is blank, nothing is edited and the form hides; the list and storage are untouched |
| Providers.ProvidersScreen.EditProvider | src/screens/providers/ProvidersScreen.tsx:126-136 | the form shows the record, remembers it and opens; the list and storage are untouched |
| Providers.ProvidersScreen.HandleSave | src/screens/providers/ProvidersScreen.tsx:67-94 | with a blank name the error and no change at all; otherwise the upserted list is stored and set and the form is reset |
| Providers.ProvidersScreen.HandleDelete | src/screens/providers/ProvidersScreen.tsx:96-108 | the list without that id is stored and set; the form is untouched |
| History.RecentOrdered | src/screens/history/HistoryScreen.tsx:18-22 | the list holds min(50, number of logs) of the logs, newest first |
| History.RecentAreNewest | src/screens/history/HistoryScreen.tsx:19-21 | no log left out is newer than the oldest one kept |
| History.GroupDates | src/screens/history/HistoryScreen.tsx:26 | the keys of the groups, one per group in order |
| History.FirstIndexOf | src/screens/history/HistoryScreen.tsx:31 | -1 exactly when no group has the key; otherwise the first group with it |
| History.LocateGroup | src/screens/history/HistoryScreen.tsx:31 | the loop finds the first group with the key, or -1 |
| History.GroupLogs | src/screens/history/HistoryScreen.tsx:25-41 | the loop builds exactly the grouping of the logs by day |
| History.DaysOf | src/screens/history/HistoryScreen.tsx:29-30 | the day key of each log, in order |
| History.GroupedDates | src/screens/history/HistoryScreen.tsx:28-38 | the group keys are the logs' days without repeats, in order of first appearance, so they are distinct |
| History.GroupedLogs | src/screens/history/HistoryScreen.tsx:28-38 | each group holds exactly the logs of its day, in list order |
| History.LogInOneGroup | src/screens/history/HistoryScreen.tsx:31-37 | every log lands in the group keyed by its day, and in no other |
| History.DateLabel | src/screens/history/HistoryScreen.tsx:43-55 | 'Today' exactly for today's key, 'Yesterday' exactly for yesterday's key when it is not today's, otherwise the long date of the key |
| History.OneTodayOneYesterday | src/screens/history/HistoryScreen.tsx:43-55 | since group keys are distinct, at most one group is headed 'Today' and at most one 'Yesterday' |
| YearInReview.Growth | src/screens/stats/YearInReviewScreen.tsx:37 | zero when there is no previous value; otherwise the percentage change, positive exactly on an increase and zero exactly when the value is unchanged |
| YearInReview.YearName | src/screens/stats/YearInReviewScreen.tsx:46-47 | 'Unknown' for a log whose task no longer exists, the task's name when it has one |
| YearInReview.NamePairs | src/screens/stats/YearInReviewScreen.tsx:45-50 | one (name, 1) pair per log, in order |
| YearInReview.CountNames | src/screens/stats/YearInReviewScreen.tsx:45-50 | the reduce yields the per-name counter of the logs |
| YearInReview.ObjectEntriesMembers | src/screens/stats/YearInReviewScreen.tsx:52 | `Object.entries` lists every counted name once, and nothing else |
| YearInReview.ObjectEntriesOrder | src/screens/stats/YearInReviewScreen.tsx:52 | array-index names come first in ascending numeric order, then the other names in the order they were first counted |
| YearInReview.IndexKeyListedFirst | src/screens/stats/YearInReviewScreen.tsx:45-52 | a task named '2' is listed before one named 'Oil' even when 'Oil' was counted first |
| YearInReview.NamePairsSum | src/screens/stats/YearInReviewScreen.tsx:48 | the pairs of one name add up to the logs counted under it |
| YearInReview.NamePairsWeight | src/screens/stats/YearInReviewScreen.tsx:45-50 | every log adds one, so all pairs add up to the number of logs |
| YearInReview.CountForPositive | src/screens/stats/YearInReviewScreen.tsx:47-48 | the name of any log is counted at least once |
| YearInReview.TopTasksFacts | src/screens/stats/YearInReviewScreen.tsx:52-54 | at most five names in the order `Object.entries` lists them sorted by descending count; counts non-increasing, each the number of logs under that name and at least one; before the cut the counts add up to all logs |
| YearInReview.DeletedTaskCountedAsUnknown | src/screens/stats/YearInReviewScreen.tsx:47 | a log of a deleted task is counted under 'Unknown' |
| YearInReview.ItemIds | src/screens/stats/YearInReviewScreen.tsx:57 | the set holds exactly the item ids of the logs |
| YearInReview.ItemsMaintainedBounds | src/screens/stats/YearInReviewScreen.tsx:57 | the number of items maintained is at most the number of logs, and zero exactly without logs |
| YearInReview.SameItemCountsOnce | src/screens/stats/YearInReviewScreen.tsx:57 | logs sharing one item count as one item |
| YearInReview.MonthLogsNonEmpty | src/screens/stats/YearInReviewScreen.tsx:64-68 | a month's filtered logs are non-empty exactly when some log was completed in that month |
| YearInReview.MonthLogs | src/screens/stats/YearInReviewScreen.tsx:63-67 | the logs of the month i months back, non-empty exactly when that month holds a log |
| YearInReview.ComputeStreak | src/screens/stats/YearInReviewScreen.tsx:61-73 | the loop with its break yields the streak of consecutive months, counting back from the current one |
| YearInReview.StreakFromIsRun | src/screens/stats/YearInReviewScreen.tsx:62-72 | the streak is at most twelve, every month it counts holds a log, and short of twelve the month before the run holds none |
| YearInReview.StreakZeroIff | src/screens/stats/YearInReviewScreen.tsx:68-71 | the streak is zero exactly when the current month holds no log |
| YearInReview.StreakWithinYear | src/screens/stats/YearInReviewScreen.tsx:24-27 | only this year's logs are scanned, so the streak never reaches back before January |
| YearInReview.ComputeYearlyStats | src/screens/stats/YearInReviewScreen.tsx:16-87 | every statistic is the corresponding definition above over this year's and last year's logs; the top tasks follow the plain object's `Object.entries` order before sorting |

## Left out

- Rendering, styles, navigation and the tap actions of search results: they hold no logic to state.
- Permission requests and Android channel setup for notifications: they are platform calls. The notification texts beyond the task and item they name are also left out.
- `getNotificationPreferences` is left out. The services take `daysBefore` as an argument.
- JSON text is abstract. A store key holds the value its text would parse to. `validateImportData` (`JSON.parse`) and `validateUrl` (`new URL`) depend on foreign parsers and are left out.
- The size of a backup (`new Blob(...).size`) is a parameter.
- `exportBackupToString`, `clearAllData` and `getStorageInfo` are left out. They only read or clear the store.
- Cloud sync (`syncToCloud`, `restoreFromCloud`) is a timed placeholder with console output and is left out. Only its local bookkeeping is modelled.
- Generated ids, `Date.now()` and random suffixes are passed in as arguments.
- Floating point is left out: the completion rate, average spending per task and average completion time (a constant 0 in the source); `parseFloat` of costs and `validatePositiveNumber`; currency formatting. Costs are whole cents and growth percentages are `real`s.
- Time zones, daylight saving time and date-fns formatting are left out. The start and end of a day, month or year, the day key, the month number and month names are parameters.
- In the analytics by month, the windows step back thirty days per month as the source does. The model does not relate them to calendar months, since the calendar is a parameter.
- `localeCompare` is a collation key given as a parameter. Its locale rules are not modelled.
- `toLowerCase` and `toUpperCase` are modelled on ASCII letters only.
- React re-render timing is left out. This includes the stale `state` captured by the provider wrappers when they are called several times in one handler. Each wrapper call is modelled from the state it is given.
- The history screen's total spending and the year-in-review share text are left out: they are float sums and text formatting.
- The upcoming screen's overdue highlight and its task cards are left out: they reuse modelled predicates.
- Provider ratings are whole numbers. A rating is never set by the form, and an edit drops it, as the source does.
- The providers screen keeps its storage in the field `stored` rather than in the shared key-value store, since the providers key is read and written only by this screen.
- Screens that only reuse modelled predicates or compute float aggregates are not part of this model: items list, item detail, calendar, notification centre, dashboard widgets, stats, add/edit item and quick add. Static-content screens are not part of this model either.
- Analytics.GenerateAnalytics: reports the corrected whole-month `completedLastMonth`, not the one-day window the source computes (src/utils/analytics.ts:40-41). The as-written count is `CompletedLastMonthAsWritten`, and the first row under "## Findings" relates the two.
- Mappings.IconForItemType: a type named like an `Object.prototype` member (`constructor`, `toString`, `valueOf`, `__proto__`, ...) reads the inherited function or object from the plain table in the source, not 'ellipse'. The model returns text only, so it returns 'ellipse' for these names too.
- Helpers.Substring0: counts and cuts in characters, not UTF-16 code units. A cut through a surrogate pair would leave a lone surrogate, which a string of Unicode scalar values cannot hold. Text within the Basic Multilingual Plane behaves as in the source.
- Helpers.TruncateText: compares and cuts in characters, for the same reason as `Substring0`. For text with characters beyond U+FFFF the source truncates earlier than the model.
- YearInReview.CountNames: a task name equal to an `Object.prototype` member (`__proto__`, `toString`, ...) is counted as any other name. In the source's plain object such a name reads an inherited value, and `__proto__` is not listed by `Object.entries`.
- The reminder services' `try`/`catch` that returns `null` when the platform scheduler throws (src/services/notifications.ts:54-70) is left out. The abstract scheduler never fails.
- Dashboard.SectionsDisjointAndActive: states that the two sections hold only active tasks of the right kind and never the same task. That every active overdue task is listed follows from the filter but is not stated.

## Findings

| source | as written | input that shows it | evidently intended | confidence | as-written member | corrected member |
|---|---|---|---|---|---|---|
| src/utils/analytics.ts:40 | the last-month window starts at `subDays(thisMonthStart, 1)`, the last day of the previous month | a log completed on the first day of the previous month is not counted in `completedLastMonth` | count the whole previous month, from `startOfMonth` of that day | high, not executed | Analytics.LastMonthMissesFirstDay | Analytics.LastMonthCountsWholeMonth |
| src/screens/upcoming/UpcomingScreen.tsx:107 | `getDayLabel(day.date, index)` passes the bucket's position in the list, but days without tasks are skipped | a single active task due in ten days: its bucket is fourth (index 3) and is labelled with a bare weekday | label by the day's distance from today, so a day more than a week away shows its date | high, not executed | Upcoming.PositionalLabelMisnamesDistantDay | Upcoming.LabelTruthful |
