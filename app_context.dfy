/** The application state container of `src/context/AppContext.tsx`: the
    pure reducer over the three collections and the provider whose wrappers
    dispatch an action and then persist the collection it changed. */
module AppContext {
  import opened Seqs
  import opened Types
  import opened Store

  /** The payload of LOAD_ALL_DATA: each field present or absent. */
  datatype Partial = Partial(
    items: Option<seq<Item>>,
    tasks: Option<seq<Task>>,
    logs: Option<seq<Log>>,
    settings: Option<StoredSettings>,
    isLoading: Option<bool>,
    onboardingComplete: Option<bool>)

  datatype Action =
    | SetLoading(loading: bool)
    | SetItems(newItems: seq<Item>)
    | AddItem(item: Item)
    | UpdateItem(item: Item)
    | DeleteItem(id: string)
    | SetTasks(newTasks: seq<Task>)
    | AddTask(task: Task)
    | UpdateTask(task: Task)
    | DeleteTask(id: string)
    | SetLogs(newLogs: seq<Log>)
    | AddLog(log: Log)
    | SetSettings(newSettings: Settings)
    | SetOnboardingComplete(complete: bool)
    | LoadAllData(payload: Partial)
    | Unknown(tag: string)

  const InitialState: AppState := AppState([], [], [], Full(DefaultSettings), true, false)

  /** `items.map(i => i.id === x.id ? x : i)`. */
  function ReplaceItem(items: seq<Item>, x: Item): (r: seq<Item>)
    ensures |r| == |items|
    ensures forall i :: 0 <= i < |items| ==> r[i] == (if items[i].id == x.id then x else items[i])
  {
    Map(items, (i: Item) => if i.id == x.id then x else i)
  }

  /** `tasks.map(t => t.id === x.id ? x : t)`. */
  function ReplaceTask(tasks: seq<Task>, x: Task): (r: seq<Task>)
    ensures |r| == |tasks|
    ensures forall i :: 0 <= i < |tasks| ==> r[i] == (if tasks[i].id == x.id then x else tasks[i])
  {
    Map(tasks, (t: Task) => if t.id == x.id then x else t)
  }

  function ItemsWithoutId(items: seq<Item>, id: string): seq<Item>
  {
    Filter(items, (i: Item) => i.id != id)
  }

  function TasksWithoutItem(tasks: seq<Task>, itemId: string): seq<Task>
  {
    Filter(tasks, (t: Task) => t.itemId != itemId)
  }

  function TasksWithoutId(tasks: seq<Task>, id: string): seq<Task>
  {
    Filter(tasks, (t: Task) => t.id != id)
  }

  /** `{ ...state, ...payload, isLoading: false }`. */
  function Overlay(s: AppState, p: Partial): AppState
  {
    AppState(
      if p.items.Some? then p.items.value else s.items,
      if p.tasks.Some? then p.tasks.value else s.tasks,
      if p.logs.Some? then p.logs.value else s.logs,
      if p.settings.Some? then p.settings.value else s.settings,
      false,
      if p.onboardingComplete.Some? then p.onboardingComplete.value else s.onboardingComplete)
  }

  /** `appReducer`. */
  function Reduce(s: AppState, a: Action): AppState
  {
    match a
    case SetLoading(b) => s.(isLoading := b)
    case SetItems(xs) => s.(items := xs)
    case AddItem(x) => s.(items := s.items + [x])
    case UpdateItem(x) => s.(items := ReplaceItem(s.items, x))
    case DeleteItem(id) => s.(items := ItemsWithoutId(s.items, id), tasks := TasksWithoutItem(s.tasks, id))
    case SetTasks(ts) => s.(tasks := ts)
    case AddTask(t) => s.(tasks := s.tasks + [t])
    case UpdateTask(t) => s.(tasks := ReplaceTask(s.tasks, t))
    case DeleteTask(id) => s.(tasks := TasksWithoutId(s.tasks, id))
    case SetLogs(ls) => s.(logs := ls)
    case AddLog(l) => s.(logs := s.logs + [l])
    case SetSettings(st) => s.(settings := Full(st))
    case SetOnboardingComplete(b) => s.(onboardingComplete := b)
    case LoadAllData(p) => Overlay(s, p)
    case Unknown(_) => s
  }

  datatype Field = ItemsField | TasksField | LogsField | SettingsField | LoadingField | OnboardingField

  /** The fields an action may write. */
  function Writes(a: Action): set<Field>
  {
    match a
    case SetLoading(_) => {LoadingField}
    case SetItems(_) => {ItemsField}
    case AddItem(_) => {ItemsField}
    case UpdateItem(_) => {ItemsField}
    case DeleteItem(_) => {ItemsField, TasksField}
    case SetTasks(_) => {TasksField}
    case AddTask(_) => {TasksField}
    case UpdateTask(_) => {TasksField}
    case DeleteTask(_) => {TasksField}
    case SetLogs(_) => {LogsField}
    case AddLog(_) => {LogsField}
    case SetSettings(_) => {SettingsField}
    case SetOnboardingComplete(_) => {OnboardingField}
    case LoadAllData(_) => {ItemsField, TasksField, LogsField, SettingsField, LoadingField, OnboardingField}
    case Unknown(_) => {}
  }

  /** Every action leaves the fields it does not write untouched; an unknown
      action therefore returns the state as it was. */
  lemma ReduceFrame(s: AppState, a: Action)
    ensures ItemsField !in Writes(a) ==> Reduce(s, a).items == s.items
    ensures TasksField !in Writes(a) ==> Reduce(s, a).tasks == s.tasks
    ensures LogsField !in Writes(a) ==> Reduce(s, a).logs == s.logs
    ensures SettingsField !in Writes(a) ==> Reduce(s, a).settings == s.settings
    ensures LoadingField !in Writes(a) ==> Reduce(s, a).isLoading == s.isLoading
    ensures OnboardingField !in Writes(a) ==> Reduce(s, a).onboardingComplete == s.onboardingComplete
    ensures Writes(a) == {} ==> Reduce(s, a) == s
  {
  }

  /** ADD_ITEM, ADD_TASK and ADD_LOG put the payload last and keep the
      earlier elements as they were. */
  lemma AddAppends(s: AppState, item: Item, task: Task, log: Log)
    ensures var r := Reduce(s, AddItem(item)); |r.items| == |s.items| + 1 && r.items[..|s.items|] == s.items && r.items[|s.items|] == item
    ensures var r := Reduce(s, AddTask(task)); |r.tasks| == |s.tasks| + 1 && r.tasks[..|s.tasks|] == s.tasks && r.tasks[|s.tasks|] == task
    ensures var r := Reduce(s, AddLog(log)); |r.logs| == |s.logs| + 1 && r.logs[..|s.logs|] == s.logs && r.logs[|s.logs|] == log
  {
  }

  /** UPDATE_TASK never inserts: with no task of that id nothing changes, and
      otherwise the payload is found exactly where tasks of its id were. */
  lemma UpdateTaskInPlace(s: AppState, t: Task)
    ensures |Reduce(s, UpdateTask(t)).tasks| == |s.tasks|
    ensures (forall i :: 0 <= i < |s.tasks| ==> s.tasks[i].id != t.id) ==> Reduce(s, UpdateTask(t)) == s
    ensures forall i :: 0 <= i < |s.tasks| ==> (Reduce(s, UpdateTask(t)).tasks[i] == t <==> s.tasks[i].id == t.id || s.tasks[i] == t)
  {
    var r := Reduce(s, UpdateTask(t));
    if forall i :: 0 <= i < |s.tasks| ==> s.tasks[i].id != t.id {
      assert r.tasks == s.tasks;
    }
  }

  /** The same for UPDATE_ITEM. */
  lemma UpdateItemInPlace(s: AppState, x: Item)
    ensures |Reduce(s, UpdateItem(x)).items| == |s.items|
    ensures (forall i :: 0 <= i < |s.items| ==> s.items[i].id != x.id) ==> Reduce(s, UpdateItem(x)) == s
    ensures forall i :: 0 <= i < |s.items| ==> (Reduce(s, UpdateItem(x)).items[i] == x <==> s.items[i].id == x.id || s.items[i] == x)
  {
    var r := Reduce(s, UpdateItem(x));
    if forall i :: 0 <= i < |s.items| ==> s.items[i].id != x.id {
      assert r.items == s.items;
    }
  }

  /** DELETE_ITEM removes the item and every task it owns, keeps every other
      item and task, and leaves the logs, which still name the item, alone. */
  lemma DeleteItemCascades(s: AppState, id: string)
    ensures var r := Reduce(s, DeleteItem(id));
      && (forall i :: 0 <= i < |r.items| ==> r.items[i].id != id)
      && (forall i :: 0 <= i < |r.tasks| ==> r.tasks[i].itemId != id)
      && (forall i :: 0 <= i < |s.items| && s.items[i].id != id ==> s.items[i] in r.items)
      && (forall i :: 0 <= i < |s.tasks| && s.tasks[i].itemId != id ==> s.tasks[i] in r.tasks)
      && multiset(r.items) <= multiset(s.items) && multiset(r.tasks) <= multiset(s.tasks)
      && r.logs == s.logs
  {
  }

  /** DELETE_TASK removes exactly the tasks with that id. */
  lemma DeleteTaskExact(s: AppState, id: string)
    ensures var r := Reduce(s, DeleteTask(id));
      && (forall i :: 0 <= i < |r.tasks| ==> r.tasks[i].id != id)
      && (forall i :: 0 <= i < |s.tasks| && s.tasks[i].id != id ==> s.tasks[i] in r.tasks)
      && r.items == s.items && r.logs == s.logs
  {
  }

  /** LOAD_ALL_DATA takes every field the payload carries, keeps the others,
      and always ends loading, even if the payload says otherwise. */
  lemma LoadAllDataOverlays(s: AppState, p: Partial)
    ensures var r := Reduce(s, LoadAllData(p));
      && !r.isLoading
      && (p.items.Some? ==> r.items == p.items.value) && (p.items.None? ==> r.items == s.items)
      && (p.tasks.Some? ==> r.tasks == p.tasks.value) && (p.tasks.None? ==> r.tasks == s.tasks)
      && (p.logs.Some? ==> r.logs == p.logs.value) && (p.logs.None? ==> r.logs == s.logs)
      && (p.settings.Some? ==> r.settings == p.settings.value) && (p.settings.None? ==> r.settings == s.settings)
      && (p.onboardingComplete.Some? ==> r.onboardingComplete == p.onboardingComplete.value)
      && (p.onboardingComplete.None? ==> r.onboardingComplete == s.onboardingComplete)
  {
  }

  /** The provider: the reducer's state plus the store it persists into. */
  class AppProvider {
    var state: AppState
    const store: KeyValueStore

    constructor (store: KeyValueStore)
      ensures state == InitialState && this.store == store
    {
      state := InitialState;
      this.store := store;
    }

    /** `loadAllData`: read the five keys (absent ones give their defaults) and
        overlay them; a read that fails to parse only ends loading. */
    method LoadAll(parseFails: bool)
      modifies this
      ensures parseFails ==> state == Reduce(old(state), SetLoading(false))
      ensures !parseFails ==> state == Reduce(old(state), LoadAllData(Partial(
        Some(ItemsIn(store.data)), Some(TasksIn(store.data)), Some(LogsIn(store.data)),
        Some(LoadedSettings(store.data)), None, Some(LoadedOnboarding(store.data)))))
      ensures !state.isLoading
    {
      if parseFails {
        state := Reduce(state, SetLoading(false));
      } else {
        var p := Partial(
          Some(ItemsIn(store.data)), Some(TasksIn(store.data)), Some(LogsIn(store.data)),
          Some(LoadedSettings(store.data)), None, Some(LoadedOnboarding(store.data)));
        state := Reduce(state, LoadAllData(p));
      }
    }

    /** `addItem`: dispatch, then save the pre-action items plus the new one. */
    method AddItemAndSave(item: Item)
      modifies this, store
      ensures state == Reduce(old(state), AddItem(item))
      ensures store.data == old(store.data)[ItemsKey := ItemList(state.items)]
    {
      var before := state;
      state := Reduce(state, AddItem(item));
      store.SetItem(ItemsKey, ItemList(before.items + [item]));
    }

    /** `updateItem`. */
    method UpdateItemAndSave(item: Item)
      modifies this, store
      ensures state == Reduce(old(state), UpdateItem(item))
      ensures store.data == old(store.data)[ItemsKey := ItemList(state.items)]
    {
      var before := state;
      state := Reduce(state, UpdateItem(item));
      store.SetItem(ItemsKey, ItemList(ReplaceItem(before.items, item)));
    }

    /** `deleteItem`: items and tasks are written, logs are not. */
    method DeleteItemAndSave(id: string)
      modifies this, store
      ensures state == Reduce(old(state), DeleteItem(id))
      ensures store.data == old(store.data)[ItemsKey := ItemList(state.items)][TasksKey := TaskList(state.tasks)]
    {
      var before := state;
      state := Reduce(state, DeleteItem(id));
      store.SetItem(ItemsKey, ItemList(ItemsWithoutId(before.items, id)));
      store.SetItem(TasksKey, TaskList(TasksWithoutItem(before.tasks, id)));
    }

    /** `addTask`. */
    method AddTaskAndSave(task: Task)
      modifies this, store
      ensures state == Reduce(old(state), AddTask(task))
      ensures store.data == old(store.data)[TasksKey := TaskList(state.tasks)]
    {
      var before := state;
      state := Reduce(state, AddTask(task));
      store.SetItem(TasksKey, TaskList(before.tasks + [task]));
    }

    /** `updateTask`. */
    method UpdateTaskAndSave(task: Task)
      modifies this, store
      ensures state == Reduce(old(state), UpdateTask(task))
      ensures store.data == old(store.data)[TasksKey := TaskList(state.tasks)]
    {
      var before := state;
      state := Reduce(state, UpdateTask(task));
      store.SetItem(TasksKey, TaskList(ReplaceTask(before.tasks, task)));
    }

    /** `deleteTask`. */
    method DeleteTaskAndSave(id: string)
      modifies this, store
      ensures state == Reduce(old(state), DeleteTask(id))
      ensures store.data == old(store.data)[TasksKey := TaskList(state.tasks)]
    {
      var before := state;
      state := Reduce(state, DeleteTask(id));
      store.SetItem(TasksKey, TaskList(TasksWithoutId(before.tasks, id)));
    }

    /** `addLog`. */
    method AddLogAndSave(log: Log)
      modifies this, store
      ensures state == Reduce(old(state), AddLog(log))
      ensures store.data == old(store.data)[LogsKey := LogList(state.logs)]
    {
      var before := state;
      state := Reduce(state, AddLog(log));
      store.SetItem(LogsKey, LogList(before.logs + [log]));
    }

    /** `updateSettings`. */
    method UpdateSettingsAndSave(settings: Settings)
      modifies this, store
      ensures state == Reduce(old(state), SetSettings(settings))
      ensures store.data == old(store.data)[SettingsKey := SettingsValue(state.settings)]
    {
      state := Reduce(state, SetSettings(settings));
      store.SetItem(SettingsKey, SettingsValue(Full(settings)));
    }

    /** `completeOnboarding`. */
    method CompleteOnboarding()
      modifies this, store
      ensures state == Reduce(old(state), SetOnboardingComplete(true))
      ensures store.data == old(store.data)[OnboardingKey := Flag(true)]
    {
      state := Reduce(state, SetOnboardingComplete(true));
      store.SetItem(OnboardingKey, Flag(true));
    }
  }

  /** `loadSettings`: whatever settings value is stored, the empty object
      included, or the defaults when the key is absent. */
  function LoadedSettings(m: map<string, Value>): (r: StoredSettings)
    ensures SettingsKey in m && m[SettingsKey].SettingsValue? ==> r == m[SettingsKey].stored
    ensures SettingsKey !in m ==> r == Full(DefaultSettings)
  {
    if SettingsKey in m && m[SettingsKey].SettingsValue? then m[SettingsKey].stored else Full(DefaultSettings)
  }

  /** A stored `{}` loads as `{}`, not as the defaults: after a backup made
      before any settings were saved is restored, the loaded settings have
      every field undefined. */
  lemma EmptySettingsLoadEmpty(m: map<string, Value>)
    ensures LoadedSettings(m[SettingsKey := SettingsValue(EmptyObject)]) == EmptyObject
    ensures LoadedSettings(m - {SettingsKey}) == Full(DefaultSettings)
  {
  }

  /** `getOnboardingComplete`: the stored flag, false when absent. */
  function LoadedOnboarding(m: map<string, Value>): bool
  {
    OnboardingKey in m && m[OnboardingKey].Flag? && m[OnboardingKey].flag
  }
}
