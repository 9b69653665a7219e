/** The records the app keeps (items, maintenance tasks, completion logs,
    settings) and the whole application state. Instants are milliseconds since
    the epoch, already parsed from their ISO-8601 text; costs are whole cents;
    optional fields are `Option`s. */
module Types {
  import opened Seqs

  type Instant = int

  /** Milliseconds in one day; `addDays(t, n)` is `t + n * DAY`. */
  const DAY: int := 86400000

  function AddDays(t: Instant, n: int): Instant
  {
    t + n * DAY
  }

  /** The four kinds of owned thing. The source stores the kind as its text. */
  datatype ItemType = Car | Home | Appliance | Other

  function TypeName(t: ItemType): string
  {
    match t
    case Car => "car"
    case Home => "home"
    case Appliance => "appliance"
    case Other => "other"
  }

  datatype Priority = Low | Medium | High | Critical

  datatype Item = Item(
    id: string,
    name: string,
    kind: ItemType,
    subtype: Option<string>,
    brand: Option<string>,
    model: Option<string>,
    purchaseDate: Option<Instant>,
    warrantyExpiry: Option<Instant>,
    location: Option<string>,
    notes: Option<string>,
    imageUri: Option<string>,
    createdAt: Instant,
    updatedAt: Instant)

  datatype Task = Task(
    id: string,
    itemId: string,
    name: string,
    description: Option<string>,
    intervalDays: int,
    lastCompleted: Option<Instant>,
    nextDue: Instant,
    reminderDaysBefore: int,
    priority: Priority,
    estimatedCost: Option<int>,
    notes: Option<string>,
    isActive: bool)

  datatype Log = Log(
    id: string,
    taskId: string,
    itemId: string,
    completedAt: Instant,
    cost: Option<int>,
    provider: Option<string>,
    notes: Option<string>,
    receiptUri: Option<string>)

  datatype Settings = Settings(notificationsEnabled: bool, defaultReminderDays: int, darkMode: bool)

  const DefaultSettings: Settings := Settings(true, 3, true)

  /** A settings value as stored and loaded: a full record, or the empty
      object `{}` that backup, import and sync write back when no settings
      were stored, and that loads as `{}` with every field undefined. */
  datatype StoredSettings = Full(settings: Settings) | EmptyObject

  datatype AppState = AppState(
    items: seq<Item>,
    tasks: seq<Task>,
    logs: seq<Log>,
    settings: StoredSettings,
    isLoading: bool,
    onboardingComplete: bool)

  /** `items.find(i => i.id === id)`. */
  function FindItem(items: seq<Item>, id: string): (r: Option<Item>)
    ensures r.None? <==> forall i :: 0 <= i < |items| ==> items[i].id != id
    ensures r.Some? ==> r.value in items && r.value.id == id
  {
    Find(items, (i: Item) => i.id == id)
  }

  /** `tasks.find(t => t.id === id)`. */
  function FindTask(tasks: seq<Task>, id: string): (r: Option<Task>)
    ensures r.None? <==> forall i :: 0 <= i < |tasks| ==> tasks[i].id != id
    ensures r.Some? ==> r.value in tasks && r.value.id == id
  {
    Find(tasks, (t: Task) => t.id == id)
  }
}
