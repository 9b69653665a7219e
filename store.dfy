/** The device's persistent key-value store (AsyncStorage) and the shapes of
    the values the app keeps in it. JSON text is abstract: a key holds the
    value its text parses to. */
module Store {
  import opened Seqs
  import opened Types

  const ItemsKey: string := "@maintenance_minder_items"
  const TasksKey: string := "@maintenance_minder_tasks"
  const LogsKey: string := "@maintenance_minder_logs"
  const SettingsKey: string := "@maintenance_minder_settings"
  const OnboardingKey: string := "@maintenance_minder_onboarding"

  datatype BackupMeta = BackupMeta(id: string, createdAt: Instant, size: int, itemCount: nat, taskCount: nat)

  datatype BackupData = BackupData(
    version: string, createdAt: Instant,
    items: seq<Item>, tasks: seq<Task>, logs: seq<Log>, settings: StoredSettings)

  /** The cached `{ lastSyncedAt, deviceId }` record; either field may be missing. */
  datatype SyncCache = SyncCache(lastSyncedAt: Option<Instant>, deviceId: Option<string>)

  datatype Value =
    | ItemList(items: seq<Item>)
    | TaskList(tasks: seq<Task>)
    | LogList(logs: seq<Log>)
    | SettingsValue(stored: StoredSettings)
    | Flag(flag: bool)
    | Text(text: string)
    | BackupList(metas: seq<BackupMeta>)
    | Backup(backup: BackupData)
    | SyncRecord(cache: SyncCache)

  /** `data ? JSON.parse(data) : []` for the item list. */
  function ItemsIn(m: map<string, Value>): seq<Item>
  {
    if ItemsKey in m && m[ItemsKey].ItemList? then m[ItemsKey].items else []
  }

  function TasksIn(m: map<string, Value>): seq<Task>
  {
    if TasksKey in m && m[TasksKey].TaskList? then m[TasksKey].tasks else []
  }

  function LogsIn(m: map<string, Value>): seq<Log>
  {
    if LogsKey in m && m[LogsKey].LogList? then m[LogsKey].logs else []
  }

  /** Stored settings, or the empty object when none are stored. */
  function StoredSettingsIn(m: map<string, Value>): StoredSettings
  {
    if SettingsKey in m && m[SettingsKey].SettingsValue? then m[SettingsKey].stored else EmptyObject
  }

  class KeyValueStore {
    var data: map<string, Value>

    constructor ()
      ensures data == map[]
    {
      data := map[];
    }

    /** `AsyncStorage.getItem`: the value under `key`, if any. */
    method GetItem(key: string) returns (v: Option<Value>)
      ensures key in data ==> v == Some(data[key])
      ensures key !in data ==> v == None
    {
      if key in data {
        v := Some(data[key]);
      } else {
        v := None;
      }
    }

    /** `AsyncStorage.setItem`. */
    method SetItem(key: string, v: Value)
      modifies this
      ensures data == old(data)[key := v]
    {
      data := data[key := v];
    }

    /** `AsyncStorage.removeItem`. */
    method RemoveItem(key: string)
      modifies this
      ensures data == old(data) - {key}
    {
      data := data - {key};
    }
  }
}
