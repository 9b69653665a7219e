/** Local backups of `src/services/backup.ts`: a backup copies the four stored
    collections under its own key and is listed, newest first, in a list that
    keeps at most ten entries; restore and import write collections back. */
module Backup {
  import opened Seqs
  import opened Text
  import opened Types
  import opened Store

  const BackupListKey: string := "@mmp_backup_list"
  const BackupDataPrefix: string := "@mmp_backup_"
  const MaxBackups: nat := 10
  const BackupVersion: string := "1.0.0"

  /** The key a backup's data is stored under. */
  function DataKey(id: string): string
  {
    BackupDataPrefix + id
  }

  /** `getBackupList`: the stored list, empty when there is none. */
  function BackupListIn(m: map<string, Value>): seq<BackupMeta>
  {
    if BackupListKey in m && m[BackupListKey].BackupList? then m[BackupListKey].metas else []
  }

  /** `getBackup`: the backup stored under that id, if any. */
  function BackupIn(m: map<string, Value>, id: string): (r: Option<BackupData>)
    ensures r.Some? <==> DataKey(id) in m && m[DataKey(id)].Backup?
  {
    if DataKey(id) in m && m[DataKey(id)].Backup? then Some(m[DataKey(id)].backup) else None
  }

  /** `backup_${Date.now()}`. */
  function BackupId(stamp: nat): string
  {
    "backup_" + NatToString(stamp)
  }

  /** The backup record made from the store at `now`. */
  function Snapshot(m: map<string, Value>, now: Instant): BackupData
  {
    BackupData(BackupVersion, now, ItemsIn(m), TasksIn(m), LogsIn(m), StoredSettingsIn(m))
  }

  /** The list after adding `meta`: it goes first, the older entries follow
      in their order, and only the first ten are kept. */
  function Rotated(meta: BackupMeta, list: seq<BackupMeta>): (r: seq<BackupMeta>)
    ensures |r| == if |list| + 1 <= MaxBackups then |list| + 1 else MaxBackups
    ensures r[0] == meta
    ensures r[1..] <= list
  {
    Take([meta] + list, MaxBackups)
  }

  /** A full list loses exactly its oldest entry. */
  lemma RotatedDropsOldest(meta: BackupMeta, list: seq<BackupMeta>)
    requires |list| == MaxBackups
    ensures Rotated(meta, list) == [meta] + list[..MaxBackups - 1]
  {
    var r := Rotated(meta, list);
    assert r[1..] == list[..MaxBackups - 1];
  }

  /** The metadata of a backup of `m`: the counts are those of the stored
      collections, absent ones counting as empty. */
  function MetaFor(m: map<string, Value>, now: Instant, stamp: nat, size: int): BackupMeta
  {
    BackupMeta(BackupId(stamp), now, size, |ItemsIn(m)|, |TasksIn(m)|)
  }

  /** The store after `createBackup`: the snapshot under its data key, then
      the list read back and rotated. */
  function Created(m: map<string, Value>, now: Instant, stamp: nat, size: int): map<string, Value>
  {
    var m1 := m[DataKey(BackupId(stamp)) := Backup(Snapshot(m, now))];
    m1[BackupListKey := BackupList(Rotated(MetaFor(m, now, stamp, size), BackupListIn(m1)))]
  }

  /** `createBackup`: store the snapshot under a new key, then put its
      metadata at the head of the list. `stamp` is the time the id is made
      from and `size` the byte length of the backup's text. */
  method CreateBackup(store: KeyValueStore, now: Instant, stamp: nat, size: int) returns (meta: BackupMeta)
    modifies store
    ensures meta == MetaFor(old(store.data), now, stamp, size)
    ensures store.data == Created(old(store.data), now, stamp, size)
  {
    var backup := Snapshot(store.data, now);
    var backupId := BackupId(stamp);
    store.SetItem(DataKey(backupId), Backup(backup));
    meta := BackupMeta(backupId, now, size, |backup.items|, |backup.tasks|);
    var existing := BackupListIn(store.data);
    store.SetItem(BackupListKey, BackupList(Take([meta] + existing, MaxBackups)));
  }

  /** A created backup's data key is never the list key, nor one of the
      collection keys. */
  lemma CreatedKeyIsFresh(stamp: nat)
    ensures DataKey(BackupId(stamp)) != BackupListKey
    ensures DataKey(BackupId(stamp)) !in {ItemsKey, TasksKey, LogsKey, SettingsKey}
  {
    var k := DataKey(BackupId(stamp));
    assert k[12] == 'b' && BackupListKey[12] == 'l';
    assert k[2] == 'm' && ItemsKey[2] == 'a' && TasksKey[2] == 'a' && LogsKey[2] == 'a' && SettingsKey[2] == 'a';
  }

  /** After a backup the list starts with its metadata and then the earlier
      list, and never grows past ten. */
  lemma CreateBackupList(m: map<string, Value>, now: Instant, stamp: nat, size: int)
    ensures var list := BackupListIn(Created(m, now, stamp, size));
      && list == Rotated(MetaFor(m, now, stamp, size), BackupListIn(m))
      && list[0] == MetaFor(m, now, stamp, size) && list[1..] <= BackupListIn(m) && |list| <= MaxBackups
    ensures MetaFor(m, now, stamp, size).itemCount == |ItemsIn(m)|
    ensures MetaFor(m, now, stamp, size).taskCount == |TasksIn(m)|
  {
    CreatedKeyIsFresh(stamp);
  }

  /** The store after `restoreBackup` of a found backup. */
  function Restored(m: map<string, Value>, b: BackupData): map<string, Value>
  {
    m[ItemsKey := ItemList(b.items)][TasksKey := TaskList(b.tasks)][LogsKey := LogList(b.logs)]
     [SettingsKey := SettingsValue(b.settings)]
  }

  /** `restoreBackup`: an unknown id gives false and writes nothing. */
  method RestoreBackup(store: KeyValueStore, id: string) returns (ok: bool)
    modifies store
    ensures ok <==> BackupIn(old(store.data), id).Some?
    ensures !ok ==> store.data == old(store.data)
    ensures ok ==> store.data == Restored(old(store.data), BackupIn(old(store.data), id).value)
  {
    var stored := store.GetItem(DataKey(id));
    if stored.None? || !stored.value.Backup? {
      return false;
    }
    var backup := stored.value.backup;
    store.SetItem(ItemsKey, ItemList(backup.items));
    store.SetItem(TasksKey, TaskList(backup.tasks));
    store.SetItem(LogsKey, LogList(backup.logs));
    store.SetItem(SettingsKey, SettingsValue(backup.settings));
    ok := true;
  }

  /** The collection keys are pairwise distinct. */
  lemma CollectionKeysDistinct()
    ensures ItemsKey != TasksKey && ItemsKey != LogsKey && ItemsKey != SettingsKey
    ensures TasksKey != LogsKey && TasksKey != SettingsKey && LogsKey != SettingsKey
  {
    assert ItemsKey[20] != TasksKey[20] && ItemsKey[20] != LogsKey[20] && ItemsKey[20] != SettingsKey[20];
    assert TasksKey[20] != LogsKey[20] && TasksKey[20] != SettingsKey[20] && LogsKey[20] != SettingsKey[20];
  }

  /** Backing up and then restoring that backup gives back the collections
      and settings as they were when the backup was made. */
  lemma BackupRestoreRoundTrip(m: map<string, Value>, now: Instant, stamp: nat, size: int)
    ensures var later := Created(m, now, stamp, size);
      && BackupIn(later, BackupId(stamp)) == Some(Snapshot(m, now))
      && var r := Restored(later, BackupIn(later, BackupId(stamp)).value);
      && ItemsIn(r) == ItemsIn(m) && TasksIn(r) == TasksIn(m) && LogsIn(r) == LogsIn(m)
      && StoredSettingsIn(r) == StoredSettingsIn(m)
  {
    CollectionKeysDistinct();
    CreatedKeyIsFresh(stamp);
  }

  /** The store after `deleteBackup`: the data key is removed first, then
      the list as read back is filtered. */
  function AfterDelete(m: map<string, Value>, id: string): map<string, Value>
  {
    var m1 := m - {DataKey(id)};
    m1[BackupListKey := BackupList(Filter(BackupListIn(m1), (b: BackupMeta) => b.id != id))]
  }

  /** `deleteBackup`. */
  method DeleteBackup(store: KeyValueStore, id: string)
    modifies store
    ensures store.data == AfterDelete(old(store.data), id)
  {
    store.RemoveItem(DataKey(id));
    var backups := BackupListIn(store.data);
    var updated := Filter(backups, (b: BackupMeta) => b.id != id);
    store.SetItem(BackupListKey, BackupList(updated));
  }

  /** Deleting a listed backup removes every entry with its id and keeps the
      rest in order; its data is gone. */
  lemma DeleteBackupEffects(m: map<string, Value>, id: string)
    requires DataKey(id) != BackupListKey
    ensures BackupIn(AfterDelete(m, id), id).None?
    ensures var after := BackupListIn(AfterDelete(m, id));
      && after == Filter(BackupListIn(m), (b: BackupMeta) => b.id != id)
      && (forall i :: 0 <= i < |after| ==> after[i].id != id)
      && (forall i :: 0 <= i < |BackupListIn(m)| && BackupListIn(m)[i].id != id ==> BackupListIn(m)[i] in after)
  {
  }

  /** The one id whose data key is the list key: deleting it wipes the whole
      list, since the list is read back after its key was removed. */
  lemma DeleteListIdEmptiesList(m: map<string, Value>)
    ensures BackupListIn(AfterDelete(m, "list")) == []
  {
    assert DataKey("list") == BackupListKey;
  }

  /** What `JSON.parse` of an import yields, as far as the import looks at it:
      each collection when it is an array, the settings when present. */
  datatype ImportPayload = ImportPayload(items: Option<seq<Item>>, tasks: Option<seq<Task>>, logs: Option<seq<Log>>,
                                         settings: Option<StoredSettings>)

  /** The store after an accepted import. */
  function Imported(m: map<string, Value>, p: ImportPayload): map<string, Value>
    requires p.items.Some? && p.tasks.Some? && p.logs.Some?
  {
    var m1 := m[ItemsKey := ItemList(p.items.value)][TasksKey := TaskList(p.tasks.value)][LogsKey := LogList(p.logs.value)];
    if p.settings.Some? then m1[SettingsKey := SettingsValue(p.settings.value)] else m1
  }

  /** `importBackupFromString`: text that does not parse (None) or lacks one
      of the three arrays writes nothing and gives false. */
  method ImportBackupFromString(store: KeyValueStore, parsed: Option<ImportPayload>) returns (ok: bool)
    modifies store
    ensures ok <==> parsed.Some? && parsed.value.items.Some? && parsed.value.tasks.Some? && parsed.value.logs.Some?
    ensures !ok ==> store.data == old(store.data)
    ensures ok ==> store.data == Imported(old(store.data), parsed.value)
  {
    if parsed.None? {
      return false;
    }
    var data := parsed.value;
    if data.items.None? || data.tasks.None? || data.logs.None? {
      return false;
    }
    store.SetItem(ItemsKey, ItemList(data.items.value));
    store.SetItem(TasksKey, TaskList(data.tasks.value));
    store.SetItem(LogsKey, LogList(data.logs.value));
    if data.settings.Some? {
      store.SetItem(SettingsKey, SettingsValue(data.settings.value));
    }
    ok := true;
  }

  /** An import without settings keeps the stored settings; the collections
      are the imported ones. */
  lemma ImportEffects(m: map<string, Value>, p: ImportPayload)
    requires p.items.Some? && p.tasks.Some? && p.logs.Some?
    ensures var r := Imported(m, p);
      && ItemsIn(r) == p.items.value && TasksIn(r) == p.tasks.value && LogsIn(r) == p.logs.value
      && (p.settings.None? ==> StoredSettingsIn(r) == StoredSettingsIn(m))
      && (p.settings.Some? ==> StoredSettingsIn(r) == p.settings.value)
  {
    CollectionKeysDistinct();
  }
}
