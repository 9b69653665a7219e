/** The task list of `src/screens/tasks/TasksScreen.tsx`: active tasks,
    narrowed by a search text and a status filter, then sorted; and the
    counts shown on the filter chips. `localeCompare` on names is a
    collation key given as a parameter. */
module TasksScreen {
  import opened Seqs
  import opened Text
  import opened Types
  import opened Dates
  import opened Sorting

  datatype FilterKind = All | OverdueOnly | DueSoonOnly | Completed
  datatype SortKind = ByDate | ByPriority | ByName

  /** `priorityOrder`: critical first, low last. */
  function PriorityRank(p: Priority): (r: int)
    ensures 0 <= r <= 3
    ensures p == Critical <==> r == 0
  {
    match p
    case Critical => 0
    case High => 1
    case Medium => 2
    case Low => 3
  }

  predicate IsActiveTask(t: Task)
  {
    t.isActive
  }

  /** The search test on an already lower-cased query: the task's name, its
      description, or the name of its item contains the query. */
  predicate MatchesQuery(items: seq<Item>, t: Task, q: string)
  {
    || Contains(LowerStr(t.name), q)
    || (t.description.Some? && Contains(LowerStr(t.description.value), q))
    || (FindItem(items, t.itemId).Some? && Contains(LowerStr(FindItem(items, t.itemId).value.name), q))
  }

  function Matching(items: seq<Item>, q: string): Task -> bool
  {
    (t: Task) => MatchesQuery(items, t, q)
  }

  function OverdueAt(now: Instant): Task -> bool
  {
    (t: Task) => IsOverdue(t.nextDue, now)
  }

  function DueSoonAt(now: Instant): Task -> bool
  {
    (t: Task) => IsDueSoon(t.nextDue, now) && !IsOverdue(t.nextDue, now)
  }

  /** Whether a task passes the status filter; 'all' and 'completed' keep
      every task. */
  predicate PassesFilter(t: Task, f: FilterKind, now: Instant)
  {
    match f
    case OverdueOnly => IsOverdue(t.nextDue, now)
    case DueSoonOnly => IsDueSoon(t.nextDue, now) && !IsOverdue(t.nextDue, now)
    case _ => true
  }

  /** The search step: an empty query (falsy in the source) keeps the list. */
  function Searched(items: seq<Item>, tasks: seq<Task>, query: string): seq<Task>
  {
    if query == "" then tasks else Filter(tasks, Matching(items, LowerStr(query)))
  }

  /** The status-filter step. */
  function Narrowed(tasks: seq<Task>, f: FilterKind, now: Instant): seq<Task>
  {
    match f
    case OverdueOnly => Filter(tasks, OverdueAt(now))
    case DueSoonOnly => Filter(tasks, DueSoonAt(now))
    case _ => tasks
  }

  /** The tasks before sorting. */
  function Selected(items: seq<Item>, tasks: seq<Task>, query: string, f: FilterKind, now: Instant): seq<Task>
  {
    Narrowed(Searched(items, Filter(tasks, IsActiveTask), query), f, now)
  }

  /** The comparator's key; `name` sorts by the collation key of the name. */
  function SortKey(s: SortKind, collate: string -> int): Task -> int
  {
    match s
    case ByDate => (t: Task) => t.nextDue
    case ByPriority => (t: Task) => PriorityRank(t.priority)
    case ByName => (t: Task) => collate(t.name)
  }

  /** `filteredTasks`: the local list is narrowed step by step and then
      sorted. */
  method FilteredTasks(items: seq<Item>, tasks: seq<Task>, query: string, f: FilterKind, s: SortKind,
                       collate: string -> int, now: Instant) returns (r: seq<Task>)
    ensures r == SortBy(Selected(items, tasks, query, f, now), SortKey(s, collate))
  {
    var list := Filter(tasks, IsActiveTask);
    if query != "" {
      var q := LowerStr(query);
      list := Filter(list, Matching(items, q));
    }
    if f == OverdueOnly {
      list := Filter(list, OverdueAt(now));
    } else if f == DueSoonOnly {
      list := Filter(list, DueSoonAt(now));
    }
    r := SortBy(list, SortKey(s, collate));
  }

  /** A task is listed exactly when it is one of the tasks, active, matches
      the search (any task does when the search is empty) and passes the
      status filter. */
  lemma SelectedIff(items: seq<Item>, tasks: seq<Task>, query: string, f: FilterKind, now: Instant, t: Task)
    ensures t in Selected(items, tasks, query, f, now) <==>
      (&& t in tasks && t.isActive
       && (query == "" || MatchesQuery(items, t, LowerStr(query)))
       && PassesFilter(t, f, now))
  {
    var active := Filter(tasks, IsActiveTask);
    var searched := Searched(items, active, query);
    if t in tasks && t.isActive && (query == "" || MatchesQuery(items, t, LowerStr(query))) {
      var i :| 0 <= i < |tasks| && tasks[i] == t;
      assert t in active;
      var j :| 0 <= j < |active| && active[j] == t;
      assert t in searched;
    }
  }

  /** The sorted list is a reordering of the selected tasks; by date the
      due instants do not decrease, by priority critical comes before high
      before medium before low. */
  lemma FilteredTasksOrdered(items: seq<Item>, tasks: seq<Task>, query: string, f: FilterKind, s: SortKind,
                             collate: string -> int, now: Instant)
    ensures var r := SortBy(Selected(items, tasks, query, f, now), SortKey(s, collate));
      && multiset(r) == multiset(Selected(items, tasks, query, f, now))
      && (s == ByDate ==> forall i, j :: 0 <= i < j < |r| ==> r[i].nextDue <= r[j].nextDue)
      && (s == ByPriority ==> forall i, j :: 0 <= i < j < |r| ==> PriorityRank(r[i].priority) <= PriorityRank(r[j].priority))
      && (s == ByName ==> forall i, j :: 0 <= i < j < |r| ==> collate(r[i].name) <= collate(r[j].name))
  {
    var r := SortBy(Selected(items, tasks, query, f, now), SortKey(s, collate));
    assert SortedBy(r, SortKey(s, collate));
  }

  /** An empty search keeps every active task that passes the filter. */
  lemma EmptySearchKeepsAll(items: seq<Item>, tasks: seq<Task>, f: FilterKind, now: Instant)
    ensures Selected(items, tasks, "", f, now) == Narrowed(Filter(tasks, IsActiveTask), f, now)
  {
  }

  datatype Chip = Chip(kind: FilterKind, caption: string, count: nat)

  function ActiveAndOverdue(now: Instant): Task -> bool
  {
    (t: Task) => t.isActive && IsOverdue(t.nextDue, now)
  }

  function ActiveAndDueSoon(now: Instant): Task -> bool
  {
    (t: Task) => t.isActive && IsDueSoon(t.nextDue, now) && !IsOverdue(t.nextDue, now)
  }

  /** `filterOptions`: the three chips and their counts over all tasks. */
  function FilterOptions(tasks: seq<Task>, now: Instant): seq<Chip>
  {
    [Chip(All, "All", |Filter(tasks, IsActiveTask)|),
     Chip(OverdueOnly, "Overdue", |Filter(tasks, ActiveAndOverdue(now))|),
     Chip(DueSoonOnly, "Due Soon", |Filter(tasks, ActiveAndDueSoon(now))|)]
  }

  /** Each chip counts exactly the tasks its filter lists when the search is
      empty. */
  lemma ChipCountsMatchFilters(items: seq<Item>, tasks: seq<Task>, now: Instant)
    ensures FilterOptions(tasks, now)[0].count == |Selected(items, tasks, "", All, now)|
    ensures FilterOptions(tasks, now)[1].count == |Selected(items, tasks, "", OverdueOnly, now)|
    ensures FilterOptions(tasks, now)[2].count == |Selected(items, tasks, "", DueSoonOnly, now)|
  {
    assert forall x :: ActiveAndOverdue(now)(x) == (IsActiveTask(x) && OverdueAt(now)(x));
    FilterBoth(tasks, IsActiveTask, OverdueAt(now), ActiveAndOverdue(now));
    assert forall x :: ActiveAndDueSoon(now)(x) == (IsActiveTask(x) && DueSoonAt(now)(x));
    FilterBoth(tasks, IsActiveTask, DueSoonAt(now), ActiveAndDueSoon(now));
  }
}
