/** Local sync bookkeeping of `src/services/sync.ts`: the device id kept in
    the store, the cached time of the last sync, the snapshot written and read
    for a sync, and the last-write-wins merge. */
module Sync {
  import opened Seqs
  import opened Types
  import opened Store

  const SyncCacheKey: string := "@maintenance_minder_sync_cache"
  const DeviceIdKey: string := "@maintenance_minder_device_id"

  /** Five minutes in milliseconds. */
  const UnsyncedAfter: int := 5 * 60 * 1000

  datatype SyncData = SyncData(items: seq<Item>, tasks: seq<Task>, logs: seq<Log>, settings: StoredSettings,
                               lastSyncedAt: Instant, deviceId: string)

  /** `mergeData`: last write wins, and a tie keeps the local copy. */
  function MergeData(local: SyncData, cloud: SyncData): (r: SyncData)
    ensures r == local || r == cloud
    ensures cloud.lastSyncedAt > local.lastSyncedAt ==> r == cloud
    ensures cloud.lastSyncedAt <= local.lastSyncedAt ==> r == local
  {
    if cloud.lastSyncedAt > local.lastSyncedAt then cloud else local
  }

  /** The merge keeps the later of the two sync times, and merging the same
      cloud copy again changes nothing. */
  lemma MergeLatestAndStable(local: SyncData, cloud: SyncData)
    ensures MergeData(local, cloud).lastSyncedAt ==
      (if cloud.lastSyncedAt > local.lastSyncedAt then cloud.lastSyncedAt else local.lastSyncedAt)
    ensures MergeData(MergeData(local, cloud), cloud) == MergeData(local, cloud)
  {
  }

  /** Whether data counts as unsynced at `now`, given the cached time of the
      last sync: never synced, or synced more than five minutes ago. */
  function Unsynced(lastSyncedAt: Option<Instant>, now: Instant): (r: bool)
    ensures lastSyncedAt.None? ==> r
    ensures lastSyncedAt.Some? ==> (r <==> now - lastSyncedAt.value > UnsyncedAfter)
  {
    match lastSyncedAt
    case None => true
    case Some(last) => last < now - UnsyncedAfter
  }

  /** A sync exactly five minutes ago still counts as synced. */
  lemma UnsyncedBoundary(last: Instant)
    ensures !Unsynced(Some(last), last + UnsyncedAfter)
    ensures Unsynced(Some(last), last + UnsyncedAfter + 1)
  {
  }

  /** The device id stored under its key, if a non-empty one is. */
  function StoredDeviceId(m: map<string, Value>): (r: Option<string>)
    ensures r.Some? ==> r.value != "" && DeviceIdKey in m && m[DeviceIdKey] == Text(r.value)
  {
    if DeviceIdKey in m && m[DeviceIdKey].Text? && m[DeviceIdKey].text != "" then Some(m[DeviceIdKey].text)
    else None
  }

  /** The cached sync record, if one is stored. */
  function CachedSync(m: map<string, Value>): Option<SyncCache>
  {
    if SyncCacheKey in m && m[SyncCacheKey].SyncRecord? then Some(m[SyncCacheKey].cache) else None
  }

  /** The id `getDeviceId` answers with: the stored one, or `device_`
      followed by `suffix`. */
  function DeviceIdFor(m: map<string, Value>, suffix: string): (r: string)
    ensures r != ""
    ensures StoredDeviceId(m).Some? ==> r == StoredDeviceId(m).value
  {
    if StoredDeviceId(m).Some? then StoredDeviceId(m).value else "device_" + suffix
  }

  /** The store after `getDeviceId`: unchanged when an id is stored, else
      holding the new one. */
  function WithDeviceId(m: map<string, Value>, suffix: string): (r: map<string, Value>)
    ensures StoredDeviceId(r) == Some(DeviceIdFor(m, suffix))
    ensures forall k :: k != DeviceIdKey ==> (k in r <==> k in m) && (k in r ==> r[k] == m[k])
    ensures StoredDeviceId(m).Some? ==> r == m
  {
    if StoredDeviceId(m).Some? then m else m[DeviceIdKey := Text(DeviceIdFor(m, suffix))]
  }

  /** `getDeviceId`: the stored id, or a new one made from `suffix` (standing
      for the time and random digits) that is stored first. */
  method GetDeviceId(store: KeyValueStore, suffix: string) returns (id: string)
    modifies store
    ensures id != "" && StoredDeviceId(store.data) == Some(id)
    ensures StoredDeviceId(old(store.data)).Some? ==>
      id == StoredDeviceId(old(store.data)).value && store.data == old(store.data)
    ensures StoredDeviceId(old(store.data)).None? ==>
      id == "device_" + suffix && store.data == old(store.data)[DeviceIdKey := Text(id)]
    ensures id == DeviceIdFor(old(store.data), suffix) && store.data == WithDeviceId(old(store.data), suffix)
  {
    var stored := store.GetItem(DeviceIdKey);
    if stored.Some? && stored.value.Text? && stored.value.text != "" {
      id := stored.value.text;
    } else {
      id := "device_" + suffix;
      store.SetItem(DeviceIdKey, Text(id));
    }
  }

  /** Asking twice gives the same id, and only the first ask can write. */
  method GetDeviceIdTwice(store: KeyValueStore, suffix1: string, suffix2: string) returns (first: string, second: string)
    modifies store
    ensures first == second
    ensures StoredDeviceId(old(store.data)).Some? ==> store.data == old(store.data)
  {
    first := GetDeviceId(store, suffix1);
    second := GetDeviceId(store, suffix2);
  }

  /** `getLastSyncInfo`: the cached sync time, absent when nothing is cached;
      the cached device id, falling back to this device's id when the cache
      has none. */
  method GetLastSyncInfo(store: KeyValueStore, suffix: string) returns (lastSyncedAt: Option<Instant>, deviceId: string)
    modifies store
    ensures CachedSync(old(store.data)).None? ==> lastSyncedAt.None? && StoredDeviceId(store.data) == Some(deviceId)
    ensures CachedSync(old(store.data)).Some? ==> lastSyncedAt == CachedSync(old(store.data)).value.lastSyncedAt
    ensures var c := CachedSync(old(store.data));
      c.Some? && c.value.deviceId.Some? && c.value.deviceId.value != "" ==> deviceId == c.value.deviceId.value
    ensures var c := CachedSync(old(store.data));
      c.Some? && (c.value.deviceId.None? || c.value.deviceId.value == "") ==> StoredDeviceId(store.data) == Some(deviceId)
    ensures CachedSync(store.data) == CachedSync(old(store.data))
    ensures store.data == WithDeviceId(old(store.data), suffix)
    ensures var c := CachedSync(old(store.data));
      c.None? || c.value.deviceId.None? || c.value.deviceId.value == "" ==>
        deviceId == DeviceIdFor(old(store.data), suffix)
  {
    var syncData := store.GetItem(SyncCacheKey);
    var own := GetDeviceId(store, suffix);
    if syncData.Some? && syncData.value.SyncRecord? {
      var parsed := syncData.value.cache;
      lastSyncedAt := parsed.lastSyncedAt;
      deviceId := if parsed.deviceId.Some? && parsed.deviceId.value != "" then parsed.deviceId.value else own;
    } else {
      lastSyncedAt := None;
      deviceId := own;
    }
    KeysDistinct();
  }

  /** `hasUnsyncedChanges`. */
  method HasUnsyncedChanges(store: KeyValueStore, now: Instant, suffix: string) returns (b: bool)
    modifies store
    ensures CachedSync(old(store.data)).None? ==> b
    ensures CachedSync(old(store.data)).Some? ==> b == Unsynced(CachedSync(old(store.data)).value.lastSyncedAt, now)
    ensures store.data == WithDeviceId(old(store.data), suffix)
  {
    var last, _ := GetLastSyncInfo(store, suffix);
    b := Unsynced(last, now);
  }

  /** The five sync keys and the app's collection keys are pairwise distinct. */
  lemma KeysDistinct()
    ensures SyncCacheKey != DeviceIdKey
    ensures SyncCacheKey !in {ItemsKey, TasksKey, LogsKey, SettingsKey}
    ensures DeviceIdKey !in {ItemsKey, TasksKey, LogsKey, SettingsKey}
    ensures ItemsKey != TasksKey && ItemsKey != LogsKey && ItemsKey != SettingsKey
    ensures TasksKey != LogsKey && TasksKey != SettingsKey && LogsKey != SettingsKey
  {
    assert SyncCacheKey[20] != DeviceIdKey[20];
    assert SyncCacheKey[20] != ItemsKey[20] && SyncCacheKey[20] != TasksKey[20] && SyncCacheKey[20] != LogsKey[20];
    assert SyncCacheKey[21] != SettingsKey[21];
    assert DeviceIdKey[20] != ItemsKey[20] && DeviceIdKey[20] != TasksKey[20] && DeviceIdKey[20] != LogsKey[20];
    assert DeviceIdKey[20] != SettingsKey[20];
    assert ItemsKey[20] != TasksKey[20] && ItemsKey[20] != LogsKey[20] && ItemsKey[20] != SettingsKey[20];
    assert TasksKey[20] != LogsKey[20] && TasksKey[20] != SettingsKey[20] && LogsKey[20] != SettingsKey[20];
  }

  /** The store after `saveSyncData`. */
  function SavedSync(m: map<string, Value>, data: SyncData): map<string, Value>
  {
    m[ItemsKey := ItemList(data.items)][TasksKey := TaskList(data.tasks)][LogsKey := LogList(data.logs)]
     [SettingsKey := SettingsValue(data.settings)]
     [SyncCacheKey := SyncRecord(SyncCache(Some(data.lastSyncedAt), Some(data.deviceId)))]
  }

  /** `saveSyncData`: the four collections and the sync record. */
  method SaveSyncData(store: KeyValueStore, data: SyncData)
    modifies store
    ensures store.data == SavedSync(old(store.data), data)
  {
    store.SetItem(ItemsKey, ItemList(data.items));
    store.SetItem(TasksKey, TaskList(data.tasks));
    store.SetItem(LogsKey, LogList(data.logs));
    store.SetItem(SettingsKey, SettingsValue(data.settings));
    store.SetItem(SyncCacheKey, SyncRecord(SyncCache(Some(data.lastSyncedAt), Some(data.deviceId))));
  }

  /** The snapshot `getDataForSync` would read from the store at `now`, with
      the given device id. */
  function SnapshotOf(m: map<string, Value>, now: Instant, deviceId: string): SyncData
  {
    SyncData(ItemsIn(m), TasksIn(m), LogsIn(m), StoredSettingsIn(m), now, deviceId)
  }

  /** `getDataForSync`: absent collections read as empty, absent settings as
      the empty object; the sync time is now. */
  method GetDataForSync(store: KeyValueStore, now: Instant, suffix: string) returns (data: SyncData)
    modifies store
    ensures data == SnapshotOf(old(store.data), now, data.deviceId)
    ensures StoredDeviceId(store.data) == Some(data.deviceId)
    ensures data.deviceId == DeviceIdFor(old(store.data), suffix)
    ensures store.data == WithDeviceId(old(store.data), suffix)
  {
    var items := ItemsIn(store.data);
    var tasks := TasksIn(store.data);
    var logs := LogsIn(store.data);
    var settings := StoredSettingsIn(store.data);
    var id := GetDeviceId(store, suffix);
    data := SyncData(items, tasks, logs, settings, now, id);
  }

  /** What is saved is read back: the collections and settings of a saved
      snapshot, and its sync time in the cache. */
  lemma {:induction false} SyncRoundTrip(m: map<string, Value>, data: SyncData, now: Instant)
    ensures var read := SnapshotOf(SavedSync(m, data), now, data.deviceId);
      read.items == data.items && read.tasks == data.tasks && read.logs == data.logs
      && read.settings == data.settings
    ensures CachedSync(SavedSync(m, data)) == Some(SyncCache(Some(data.lastSyncedAt), Some(data.deviceId)))
    ensures !Unsynced(CachedSync(SavedSync(m, data)).value.lastSyncedAt, data.lastSyncedAt)
  {
    KeysDistinct();
  }
}
