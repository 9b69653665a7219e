/** The counting parts of `generateAnalytics` (`src/utils/analytics.ts`):
    overview counts, items by type, spending by category and by month, the
    most common tasks and the most maintained items. Costs are whole cents,
    and a missing cost counts as 0, as `log.cost || 0` does. The calendar
    (start and end of a month, the month's short name) is a parameter. */
module Analytics {
  import opened Seqs
  import opened Types
  import opened Dates
  import opened Tally
  import opened Sorting
  import Dashboard

  // ---------------------------------------------------------------- overview

  datatype Overview = Overview(totalItems: nat, totalTasks: nat, activeTasks: nat, completedTasks: nat,
                               overdueTasks: nat)

  /** Number of active tasks. */
  function CountActive(tasks: seq<Task>): nat
  {
    if tasks == [] then 0
    else CountActive(tasks[..|tasks| - 1]) + (if tasks[|tasks| - 1].isActive then 1 else 0)
  }

  /** Number of active tasks due strictly before `now`. */
  function CountOverdue(tasks: seq<Task>, now: Instant): nat
  {
    if tasks == [] then 0
    else
      var t := tasks[|tasks| - 1];
      CountOverdue(tasks[..|tasks| - 1], now) + (if t.isActive && t.nextDue < now then 1 else 0)
  }

  lemma {:induction false} ActiveCount(tasks: seq<Task>)
    ensures |Dashboard.ActiveTasks(tasks)| == CountActive(tasks)
    decreases |tasks|
  {
    if tasks != [] {
      ActiveCount(tasks[..|tasks| - 1]);
    }
  }

  lemma {:induction false} OverdueCount(tasks: seq<Task>, now: Instant)
    ensures |Dashboard.OverdueTasks(tasks, now)| == CountOverdue(tasks, now)
    ensures CountOverdue(tasks, now) <= CountActive(tasks)
    decreases |tasks|
  {
    if tasks != [] {
      var front := tasks[..|tasks| - 1];
      var t := tasks[|tasks| - 1];
      OverdueCount(front, now);
      var overdue := (u: Task) => IsOverdue(u.nextDue, now);
      var active := Dashboard.ActiveTasks(front);
      if t.isActive {
        assert Dashboard.ActiveTasks(tasks) == active + [t];
        FilterConcat(active, [t], overdue);
        assert [t][..0] == [];
      }
    }
  }

  /** The overview counters: totals are the collection lengths, and overdue
      counts exactly the active tasks due before now, the same tasks as the
      dashboard's overdue section. */
  function OverviewOf(items: seq<Item>, tasks: seq<Task>, logs: seq<Log>, now: Instant): (r: Overview)
    ensures r.totalItems == |items| && r.totalTasks == |tasks| && r.completedTasks == |logs|
    ensures r.activeTasks == CountActive(tasks) && r.overdueTasks == CountOverdue(tasks, now)
    ensures r.overdueTasks <= r.activeTasks <= r.totalTasks
  {
    ActiveCount(tasks);
    OverdueCount(tasks, now);
    var active := Dashboard.ActiveTasks(tasks);
    var overdue := Dashboard.OverdueTasks(tasks, now);
    Overview(|items|, |tasks|, |active|, |logs|, |overdue|)
  }

  // ----------------------------------------------------------------- by type

  /** One (type, 1) pair per item, in order. */
  function TypePairs(items: seq<Item>): (r: seq<(string, int)>)
    ensures |r| == |items|
    ensures forall i :: 0 <= i < |items| ==> r[i] == (TypeName(items[i].kind), 1)
  {
    seq(|items|, i requires 0 <= i < |items| => (TypeName(items[i].kind), 1))
  }

  function TypeNames(items: seq<Item>): (r: seq<string>)
    ensures |r| == |items|
    ensures forall i :: 0 <= i < |items| ==> r[i] == TypeName(items[i].kind)
  {
    seq(|items|, i requires 0 <= i < |items| => TypeName(items[i].kind))
  }

  /** Number of items whose type is written `k`. */
  function CountType(items: seq<Item>, k: string): nat
  {
    if items == [] then 0
    else CountType(items[..|items| - 1], k) + (if TypeName(items[|items| - 1].kind) == k then 1 else 0)
  }

  /** The `reduce` over items, bumping the entry of the item's type. */
  method ByType(items: seq<Item>) returns (r: seq<Entry<string>>)
    ensures r == Accumulate(TypePairs(items))
  {
    r := [];
    var n := 0;
    while n < |items|
      invariant 0 <= n <= |items|
      invariant r == Accumulate(TypePairs(items[..n]))
    {
      var pairs := TypePairs(items[..n]);
      var x := (TypeName(items[n].kind), 1);
      AccumulateDistinct(pairs);
      r := Increment(r, x.0, x.1);
      TypePairsStep(items, n);
      AccumulateSnoc(pairs, x);
      n := n + 1;
    }
    assert items[..n] == items;
  }

  /** The pairs of one more item are the earlier pairs and its own. */
  lemma {:induction false} TypePairsStep(items: seq<Item>, n: int)
    requires 0 <= n < |items|
    ensures TypePairs(items[..n + 1]) == TypePairs(items[..n]) + [(TypeName(items[n].kind), 1)]
  {
    var front := TypePairs(items[..n]);
    var whole := TypePairs(items[..n + 1]);
    assert forall i :: 0 <= i < n ==> whole[i] == front[i];
  }

  lemma {:induction false} TypePairsSum(items: seq<Item>, k: string)
    ensures SumFor(TypePairs(items), k) == CountType(items, k)
    ensures Sum(Weights(TypePairs(items))) == |items|
    decreases |items|
  {
    if items != [] {
      var front := items[..|items| - 1];
      TypePairsSum(front, k);
      assert TypePairs(items)[..|items| - 1] == TypePairs(front);
      assert Weights(TypePairs(items))[..|items| - 1] == Weights(TypePairs(front));
    }
  }

  /** `byType` has one entry per distinct type, in order of first occurrence;
      each count is the number of items of that type, and the counts add up
      to the number of items. */
  lemma ByTypeFacts(items: seq<Item>)
    ensures var r := Accumulate(TypePairs(items));
      && Keys(r) == Dedup(TypeNames(items))
      && (forall i :: 0 <= i < |r| ==> r[i].total == CountType(items, r[i].key) >= 1)
      && Sum(Totals(r)) == |items|
  {
    var pairs := TypePairs(items);
    var r := Accumulate(pairs);
    AccumulateKeys(pairs);
    assert Firsts(pairs) == TypeNames(items);
    AccumulateTotals(pairs);
    AccumulateSum(pairs);
    TypePairsSum(items, "");
    forall i | 0 <= i < |r|
      ensures r[i].total == CountType(items, r[i].key) >= 1
    {
      TypePairsSum(items, r[i].key);
      assert r[i].key in TypeNames(items) by { assert Keys(r)[i] == r[i].key; }
      CountTypePositive(items, r[i].key);
    }
  }

  lemma {:induction false} CountTypePositive(items: seq<Item>, k: string)
    requires k in TypeNames(items)
    ensures CountType(items, k) >= 1
    decreases |items|
  {
    var front := items[..|items| - 1];
    if TypeName(items[|items| - 1].kind) != k {
      var j :| 0 <= j < |items| && TypeNames(items)[j] == k;
      assert TypeNames(front)[j] == k;
      CountTypePositive(front, k);
    }
  }

  // ------------------------------------------------------------- by category

  /** The type of the log's item and the log's cost, when the item still
      exists and the cost is present and non-zero (`if (item && log.cost)`). */
  function CategoryOf(items: seq<Item>, log: Log): seq<(string, int)>
  {
    match FindItem(items, log.itemId)
    case Some(item) => if log.cost.Some? && log.cost.value != 0 then [(TypeName(item.kind), log.cost.value)] else []
    case None => []
  }

  function CategoryPairs(items: seq<Item>, logs: seq<Log>): seq<(string, int)>
  {
    if logs == [] then [] else CategoryPairs(items, logs[..|logs| - 1]) + CategoryOf(items, logs[|logs| - 1])
  }

  /** `log.cost || 0`. */
  function CostOf(log: Log): int
  {
    if log.cost.Some? then log.cost.value else 0
  }

  /** Total spending over all logs. */
  function TotalSpend(logs: seq<Log>): int
  {
    if logs == [] then 0 else TotalSpend(logs[..|logs| - 1]) + CostOf(logs[|logs| - 1])
  }

  /** Spending on logs whose item no longer exists. */
  function OrphanSpend(items: seq<Item>, logs: seq<Log>): int
  {
    if logs == [] then 0
    else
      var log := logs[|logs| - 1];
      OrphanSpend(items, logs[..|logs| - 1]) + (if FindItem(items, log.itemId).None? then CostOf(log) else 0)
  }

  /** The `forEach` over logs updating the category map. */
  method ByCategory(items: seq<Item>, logs: seq<Log>) returns (r: seq<Entry<string>>)
    ensures r == Accumulate(CategoryPairs(items, logs))
  {
    r := [];
    var n := 0;
    while n < |logs|
      invariant 0 <= n <= |logs|
      invariant r == Accumulate(CategoryPairs(items, logs[..n]))
    {
      var log := logs[n];
      assert CategoryPairs(items, logs[..n + 1]) == CategoryPairs(items, logs[..n]) + CategoryOf(items, log) by {
        assert logs[..n + 1][..n] == logs[..n];
      }
      var item := FindItem(items, log.itemId);
      if item.Some? && log.cost.Some? && log.cost.value != 0 {
        AccumulateDistinct(CategoryPairs(items, logs[..n]));
        r := Increment(r, TypeName(item.value.kind), log.cost.value);
        AccumulateSnoc(CategoryPairs(items, logs[..n]), (TypeName(item.value.kind), log.cost.value));
      } else {
        assert CategoryPairs(items, logs[..n]) + [] == CategoryPairs(items, logs[..n]);
      }
      n := n + 1;
    }
    assert logs[..n] == logs;
  }

  lemma {:induction false} CategoryPairsSum(items: seq<Item>, logs: seq<Log>)
    ensures Sum(Weights(CategoryPairs(items, logs))) == TotalSpend(logs) - OrphanSpend(items, logs)
    decreases |logs|
  {
    if logs != [] {
      var front := logs[..|logs| - 1];
      CategoryPairsSum(items, front);
      AppendAtMostOne(CategoryPairs(items, front), CategoryOf(items, logs[|logs| - 1]), "");
    }
  }

  /** `byCategory` spends exactly what the logs of existing items cost, so
      spending on deleted items is left out, and has one entry per category. */
  lemma ByCategorySum(items: seq<Item>, logs: seq<Log>)
    ensures var r := Accumulate(CategoryPairs(items, logs));
      Sum(Totals(r)) == TotalSpend(logs) - OrphanSpend(items, logs) && Distinct(Keys(r))
  {
    AccumulateSum(CategoryPairs(items, logs));
    CategoryPairsSum(items, logs);
    AccumulateDistinct(CategoryPairs(items, logs));
  }

  /** Every category is the type of an existing item that a log with a
      non-zero cost refers to. */
  lemma ByCategoryKeys(items: seq<Item>, logs: seq<Log>, k: int) returns (j: int)
    requires 0 <= k < |Accumulate(CategoryPairs(items, logs))|
    ensures 0 <= j < |logs| && FindItem(items, logs[j].itemId).Some? && CostOf(logs[j]) != 0
    ensures TypeName(FindItem(items, logs[j].itemId).value.kind) == Accumulate(CategoryPairs(items, logs))[k].key
  {
    var m := PairOf(CategoryPairs(items, logs), k);
    j := CategoryPairSource(items, logs, m);
  }

  /** Every category pair comes from one log. */
  lemma {:induction false} CategoryPairSource(items: seq<Item>, logs: seq<Log>, m: int) returns (j: int)
    requires 0 <= m < |CategoryPairs(items, logs)|
    ensures 0 <= j < |logs| && CategoryOf(items, logs[j]) == [CategoryPairs(items, logs)[m]]
    decreases |logs|
  {
    var front := logs[..|logs| - 1];
    if m < |CategoryPairs(items, front)| {
      j := CategoryPairSource(items, front, m);
      assert logs[j] == front[j];
    } else {
      j := |logs| - 1;
    }
  }

  // ---------------------------------------------------------- most common

  /** One (name, 1) pair for a log whose task still exists. */
  function NameOf(tasks: seq<Task>, log: Log): seq<(string, int)>
  {
    match FindTask(tasks, log.taskId)
    case Some(t) => [(t.name, 1)]
    case None => []
  }

  function TaskNamePairs(tasks: seq<Task>, logs: seq<Log>): seq<(string, int)>
  {
    if logs == [] then [] else TaskNamePairs(tasks, logs[..|logs| - 1]) + NameOf(tasks, logs[|logs| - 1])
  }

  /** Number of logs whose task exists and is named `name`. */
  function CountNamed(tasks: seq<Task>, logs: seq<Log>, name: string): nat
  {
    if logs == [] then 0
    else
      var t := FindTask(tasks, logs[|logs| - 1].taskId);
      CountNamed(tasks, logs[..|logs| - 1], name) + (if t.Some? && t.value.name == name then 1 else 0)
  }

  /** Number of logs whose task exists. */
  function CountWithTask(tasks: seq<Task>, logs: seq<Log>): nat
  {
    if logs == [] then 0
    else CountWithTask(tasks, logs[..|logs| - 1]) + (if FindTask(tasks, logs[|logs| - 1].taskId).Some? then 1 else 0)
  }

  function MinusTotal(e: Entry<string>): int
  {
    -e.total
  }

  /** The `forEach` counting logs per task name, then the sort by descending
      count and the first ten. */
  method MostCommonTasks(tasks: seq<Task>, logs: seq<Log>) returns (r: seq<Entry<string>>)
    ensures r == Take(SortBy(Accumulate(TaskNamePairs(tasks, logs)), MinusTotal), 10)
  {
    var acc := [];
    var n := 0;
    while n < |logs|
      invariant 0 <= n <= |logs|
      invariant acc == Accumulate(TaskNamePairs(tasks, logs[..n]))
    {
      assert TaskNamePairs(tasks, logs[..n + 1]) == TaskNamePairs(tasks, logs[..n]) + NameOf(tasks, logs[n]) by {
        assert logs[..n + 1][..n] == logs[..n];
      }
      var task := FindTask(tasks, logs[n].taskId);
      if task.Some? {
        AccumulateDistinct(TaskNamePairs(tasks, logs[..n]));
        acc := Increment(acc, task.value.name, 1);
        AccumulateSnoc(TaskNamePairs(tasks, logs[..n]), (task.value.name, 1));
      } else {
        assert TaskNamePairs(tasks, logs[..n]) + [] == TaskNamePairs(tasks, logs[..n]);
      }
      n := n + 1;
    }
    assert logs[..n] == logs;
    r := Take(SortBy(acc, MinusTotal), 10);
  }

  lemma {:induction false} TaskNamePairsSum(tasks: seq<Task>, logs: seq<Log>, name: string)
    ensures SumFor(TaskNamePairs(tasks, logs), name) == CountNamed(tasks, logs, name)
    ensures Sum(Weights(TaskNamePairs(tasks, logs))) == CountWithTask(tasks, logs)
    decreases |logs|
  {
    if logs != [] {
      var front := logs[..|logs| - 1];
      TaskNamePairsSum(tasks, front, name);
      AppendAtMostOne(TaskNamePairs(tasks, front), NameOf(tasks, logs[|logs| - 1]), name);
    }
  }

  /** Sums over pairs that gain at most one more pair. */
  lemma {:induction false} AppendAtMostOne(p: seq<(string, int)>, step: seq<(string, int)>, name: string)
    requires |step| <= 1
    ensures SumFor(p + step, name) == SumFor(p, name) + (if step != [] && step[0].0 == name then step[0].1 else 0)
    ensures Sum(Weights(p + step)) == Sum(Weights(p)) + (if step != [] then step[0].1 else 0)
  {
    assert Weights(p + step) == Weights(p) + Weights(step);
    SumConcat(Weights(p), Weights(step));
    if step != [] {
      assert Weights(step)[..0] == [];
      assert (p + step)[..|p|] == p;
    } else {
      assert p + step == p;
    }
  }

  /** `mostCommonTasks` has at most ten entries with non-increasing counts;
      each count is the number of logs of existing tasks with that name, and
      before the cut the counts add up to the logs whose task exists, so logs
      of deleted tasks are skipped. */
  lemma MostCommonTasksFacts(tasks: seq<Task>, logs: seq<Log>)
    ensures var acc := Accumulate(TaskNamePairs(tasks, logs));
      var r := Take(SortBy(acc, MinusTotal), 10);
      && |r| <= 10
      && (forall i, j :: 0 <= i < j < |r| ==> r[i].total >= r[j].total)
      && (forall i :: 0 <= i < |r| ==> r[i].total == CountNamed(tasks, logs, r[i].key) >= 1)
      && Sum(Totals(acc)) == CountWithTask(tasks, logs)
  {
    var pairs := TaskNamePairs(tasks, logs);
    var acc := Accumulate(pairs);
    var r := Take(SortBy(acc, MinusTotal), 10);
    TopOfSorted(acc, MinusTotal, 10);
    AccumulateSum(pairs);
    TaskNamePairsSum(tasks, logs, "");
    forall i | 0 <= i < |r|
      ensures r[i].total == CountNamed(tasks, logs, r[i].key) >= 1
    {
      assert r[i] in multiset(acc);
      var k :| 0 <= k < |acc| && acc[k] == r[i];
      var j := PairOf(pairs, k);
      TaskNamePairsSum(tasks, logs, r[i].key);
      NamedPositive(tasks, logs, j);
    }
  }

  lemma {:induction false} NamedPositive(tasks: seq<Task>, logs: seq<Log>, m: int)
    requires 0 <= m < |TaskNamePairs(tasks, logs)|
    ensures CountNamed(tasks, logs, TaskNamePairs(tasks, logs)[m].0) >= 1
    decreases |logs|
  {
    var front := logs[..|logs| - 1];
    var p := TaskNamePairs(tasks, front);
    if m < |p| {
      assert TaskNamePairs(tasks, logs)[m] == p[m];
      NamedPositive(tasks, front, m);
    }
  }

  // -------------------------------------------------------- most maintained

  datatype Maintained = Maintained(name: string, taskCount: int)

  /** `items.find(i => i.id === itemId)?.name || 'Unknown'`: a deleted item,
      or one with an empty name, is shown as 'Unknown'. */
  function ItemLabel(items: seq<Item>, id: string): (r: string)
    ensures FindItem(items, id).None? ==> r == "Unknown"
    ensures r != ""
  {
    match FindItem(items, id)
    case Some(item) => if item.name != "" then item.name else "Unknown"
    case None => "Unknown"
  }

  /** One (item id, 1) pair per log. */
  function ItemIdPairs(logs: seq<Log>): (r: seq<(string, int)>)
    ensures |r| == |logs|
    ensures forall i :: 0 <= i < |logs| ==> r[i] == (logs[i].itemId, 1)
  {
    seq(|logs|, i requires 0 <= i < |logs| => (logs[i].itemId, 1))
  }

  /** Number of logs of item `id`. */
  function CountOfItem(logs: seq<Log>, id: string): nat
  {
    if logs == [] then 0
    else CountOfItem(logs[..|logs| - 1], id) + (if logs[|logs| - 1].itemId == id then 1 else 0)
  }

  /** The counter entries with their item's label. */
  function Labelled(items: seq<Item>, acc: seq<Entry<string>>): (r: seq<Maintained>)
    ensures |r| == |acc|
    ensures forall i :: 0 <= i < |acc| ==> r[i] == Maintained(ItemLabel(items, acc[i].key), acc[i].total)
  {
    seq(|acc|, i requires 0 <= i < |acc| => Maintained(ItemLabel(items, acc[i].key), acc[i].total))
  }

  function MinusTaskCount(m: Maintained): int
  {
    -m.taskCount
  }

  /** The `forEach` counting logs per item id, then labelling, the sort by
      descending count and the first five. */
  method MostMaintained(items: seq<Item>, logs: seq<Log>) returns (r: seq<Maintained>)
    ensures r == Take(SortBy(Labelled(items, Accumulate(ItemIdPairs(logs))), MinusTaskCount), 5)
  {
    var acc := [];
    var n := 0;
    while n < |logs|
      invariant 0 <= n <= |logs|
      invariant acc == Accumulate(ItemIdPairs(logs[..n]))
    {
      AccumulateDistinct(ItemIdPairs(logs[..n]));
      acc := Increment(acc, logs[n].itemId, 1);
      assert ItemIdPairs(logs[..n + 1]) == ItemIdPairs(logs[..n]) + [(logs[n].itemId, 1)];
      AccumulateSnoc(ItemIdPairs(logs[..n]), (logs[n].itemId, 1));
      n := n + 1;
    }
    assert logs[..n] == logs;
    r := Take(SortBy(Labelled(items, acc), MinusTaskCount), 5);
  }

  lemma {:induction false} ItemIdPairsSum(logs: seq<Log>, id: string)
    ensures SumFor(ItemIdPairs(logs), id) == CountOfItem(logs, id)
    decreases |logs|
  {
    if logs != [] {
      ItemIdPairsSum(logs[..|logs| - 1], id);
      assert ItemIdPairs(logs)[..|logs| - 1] == ItemIdPairs(logs[..|logs| - 1]);
    }
  }

  /** Every counted item id comes from some log, and its entry carries its
      label and its number of logs. */
  lemma LabelledCount(items: seq<Item>, logs: seq<Log>, k: int)
    requires 0 <= k < |Accumulate(ItemIdPairs(logs))|
    ensures var key := Accumulate(ItemIdPairs(logs))[k].key;
      && Labelled(items, Accumulate(ItemIdPairs(logs)))[k] == Maintained(ItemLabel(items, key), CountOfItem(logs, key))
      && exists j :: 0 <= j < |logs| && logs[j].itemId == key
  {
    var j := PairOf(ItemIdPairs(logs), k);
    ItemIdPairsSum(logs, logs[j].itemId);
  }

  /** `mostMaintained` has at most five entries with non-increasing counts,
      each the label and log count of an item some log refers to. */
  lemma MostMaintainedFacts(items: seq<Item>, logs: seq<Log>)
    ensures var r := Take(SortBy(Labelled(items, Accumulate(ItemIdPairs(logs))), MinusTaskCount), 5);
      && |r| <= 5
      && (forall i, j :: 0 <= i < j < |r| ==> r[i].taskCount >= r[j].taskCount)
      && (forall i :: 0 <= i < |r| ==>
            exists j :: 0 <= j < |logs| && r[i] == Maintained(ItemLabel(items, logs[j].itemId), CountOfItem(logs, logs[j].itemId)))
  {
    var l := Labelled(items, Accumulate(ItemIdPairs(logs)));
    var r := Take(SortBy(l, MinusTaskCount), 5);
    TopOfSorted(l, MinusTaskCount, 5);
    forall i | 0 <= i < |r|
      ensures exists j :: 0 <= j < |logs| && r[i] == Maintained(ItemLabel(items, logs[j].itemId), CountOfItem(logs, logs[j].itemId))
    {
      assert r[i] in multiset(l);
      var k :| 0 <= k < |l| && l[k] == r[i];
      LabelledCount(items, logs, k);
      var j :| 0 <= j < |logs| && logs[j].itemId == Accumulate(ItemIdPairs(logs))[k].key;
    }
  }

  /** Logs of a deleted item are still counted, under 'Unknown'. */
  lemma {:induction false} DeletedItemCountedAsUnknown(items: seq<Item>, logs: seq<Log>, j: int)
    requires 0 <= j < |logs| && FindItem(items, logs[j].itemId).None?
    ensures Maintained("Unknown", CountOfItem(logs, logs[j].itemId)) in Labelled(items, Accumulate(ItemIdPairs(logs)))
    ensures CountOfItem(logs, logs[j].itemId) >= 1
  {
    var k := EntryOf(ItemIdPairs(logs), j);
    ItemIdPairsSum(logs, logs[j].itemId);
    assert Labelled(items, Accumulate(ItemIdPairs(logs)))[k] == Maintained("Unknown", CountOfItem(logs, logs[j].itemId));
    CountOfItemPositive(logs, j);
  }

  lemma {:induction false} CountOfItemPositive(logs: seq<Log>, j: int)
    requires 0 <= j < |logs|
    ensures CountOfItem(logs, logs[j].itemId) >= 1
    decreases |logs|
  {
    if j < |logs| - 1 {
      var front := logs[..|logs| - 1];
      assert front[j] == logs[j];
      CountOfItemPositive(front, j);
    }
  }

  // ---------------------------------------------------------------- by month

  /** The calendar of the device's time zone: the first and last instant of
      the month an instant lies in, and the month's short English name. */
  datatype Calendar = Calendar(monthStart: Instant -> Instant, monthEnd: Instant -> Instant,
                               monthName: Instant -> string)

  datatype MonthSpend = MonthSpend(month: string, amount: int)

  /** Spending on logs completed in `[lo, hi]`, both ends included, as
      `isWithinInterval` decides. */
  function SpendWithin(logs: seq<Log>, lo: Instant, hi: Instant): int
  {
    if logs == [] then 0
    else
      var log := logs[|logs| - 1];
      SpendWithin(logs[..|logs| - 1], lo, hi) + (if lo <= log.completedAt <= hi then CostOf(log) else 0)
  }

  /** The start of the window of the `i`-th month back: thirty days per month
      before the start of the current month. */
  function WindowStart(cal: Calendar, now: Instant, i: int): Instant
  {
    AddDays(cal.monthStart(now), -(i * 30))
  }

  /** One day after the end of the month the window starts in. */
  function WindowEnd(cal: Calendar, now: Instant, i: int): Instant
  {
    AddDays(cal.monthEnd(WindowStart(cal, now, i)), 1)
  }

  function MonthEntry(cal: Calendar, logs: seq<Log>, now: Instant, i: int): MonthSpend
  {
    MonthSpend(cal.monthName(WindowStart(cal, now, i)), SpendWithin(logs, WindowStart(cal, now, i), WindowEnd(cal, now, i)))
  }

  /** The loop from five months back to the current month. */
  method ByMonth(cal: Calendar, logs: seq<Log>, now: Instant) returns (r: seq<MonthSpend>)
    ensures |r| == 6
    ensures forall k :: 0 <= k < 6 ==> r[k] == MonthEntry(cal, logs, now, 5 - k)
  {
    r := [];
    var i := 5;
    while i >= 0
      invariant -1 <= i <= 5
      invariant |r| == 5 - i
      invariant forall k :: 0 <= k < |r| ==> r[k] == MonthEntry(cal, logs, now, 5 - k)
    {
      var monthStart := WindowStart(cal, now, i);
      var monthEnd := AddDays(cal.monthEnd(monthStart), 1);
      r := r + [MonthSpend(cal.monthName(monthStart), SpendWithin(logs, monthStart, monthEnd))];
      i := i - 1;
    }
  }

  /** The windows start thirty days apart, oldest first, the last one at the
      start of the current month. */
  lemma ByMonthChronological(cal: Calendar, now: Instant, k: int)
    requires 0 <= k < 5
    ensures WindowStart(cal, now, 5 - (k + 1)) - WindowStart(cal, now, 5 - k) == 30 * DAY
    ensures WindowStart(cal, now, 0) == cal.monthStart(now)
  {
  }

  /** Widening a window never loses a log: spending within a window is the
      spending within a wider one minus what lies outside, which with no
      negative costs makes it at most the wider window's. */
  lemma {:induction false} SpendWithinMonotone(logs: seq<Log>, lo: Instant, hi: Instant, lo': Instant, hi': Instant)
    requires lo' <= lo && hi <= hi'
    requires forall i :: 0 <= i < |logs| ==> CostOf(logs[i]) >= 0
    ensures SpendWithin(logs, lo, hi) <= SpendWithin(logs, lo', hi')
    ensures SpendWithin(logs, lo, hi) <= TotalSpend(logs)
    decreases |logs|
  {
    if logs != [] {
      var front := logs[..|logs| - 1];
      assert forall i :: 0 <= i < |front| ==> front[i] == logs[i];
      SpendWithinMonotone(front, lo, hi, lo', hi');
    }
  }

  // ------------------------------------------------------- completed counts

  /** Number of logs completed in `[lo, hi]`. */
  function CountWithin(logs: seq<Log>, lo: Instant, hi: Instant): nat
  {
    if logs == [] then 0
    else CountWithin(logs[..|logs| - 1], lo, hi) + (if lo <= logs[|logs| - 1].completedAt <= hi then 1 else 0)
  }

  /** `completedThisMonth`: from the start of the month up to now. */
  function CompletedThisMonth(cal: Calendar, logs: seq<Log>, now: Instant): nat
  {
    CountWithin(logs, cal.monthStart(now), now)
  }

  /** `completedLastMonth` as written: the window starts one day before this
      month, that is on the last day of the previous month, not its first. */
  function CompletedLastMonthAsWritten(cal: Calendar, logs: seq<Log>, now: Instant): nat
  {
    var dayBefore := AddDays(cal.monthStart(now), -1);
    CountWithin(logs, dayBefore, cal.monthEnd(dayBefore))
  }

  /** `completedLastMonth` as intended: the whole previous month. */
  function CompletedLastMonth(cal: Calendar, logs: seq<Log>, now: Instant): nat
  {
    var dayBefore := AddDays(cal.monthStart(now), -1);
    CountWithin(logs, cal.monthStart(dayBefore), cal.monthEnd(dayBefore))
  }

  /** A month whose first instant comes more than a day before its last day
      starts. */
  predicate LongerThanADay(cal: Calendar, t: Instant)
  {
    cal.monthStart(t) < t && t <= cal.monthEnd(t)
  }

  /** A log completed on the first instant of the previous month is missed
      by the count as written and counted by the intended one. */
  lemma LastMonthMissesFirstDay(cal: Calendar, now: Instant, log: Log)
    requires LongerThanADay(cal, AddDays(cal.monthStart(now), -1))
    requires log.completedAt == cal.monthStart(AddDays(cal.monthStart(now), -1))
    ensures CompletedLastMonthAsWritten(cal, [log], now) == 0
    ensures CompletedLastMonth(cal, [log], now) == 1
  {
    var dayBefore := AddDays(cal.monthStart(now), -1);
    assert [log][..0] == [];
    assert CountWithin([log], dayBefore, cal.monthEnd(dayBefore)) == 0;
    assert CountWithin([log], cal.monthStart(dayBefore), cal.monthEnd(dayBefore)) == 1;
  }

  /** The intended window contains the one as written, so the intended count
      is never smaller; logs completed on the previous month's last day are
      counted by both. */
  lemma {:induction false} LastMonthCountsWholeMonth(cal: Calendar, logs: seq<Log>, now: Instant)
    requires LongerThanADay(cal, AddDays(cal.monthStart(now), -1))
    ensures CompletedLastMonthAsWritten(cal, logs, now) <= CompletedLastMonth(cal, logs, now)
  {
    var dayBefore := AddDays(cal.monthStart(now), -1);
    CountWithinMonotone(logs, dayBefore, cal.monthEnd(dayBefore), cal.monthStart(dayBefore), cal.monthEnd(dayBefore));
  }

  lemma {:induction false} CountWithinMonotone(logs: seq<Log>, lo: Instant, hi: Instant, lo': Instant, hi': Instant)
    requires lo' <= lo && hi <= hi'
    ensures CountWithin(logs, lo, hi) <= CountWithin(logs, lo', hi')
    ensures CountWithin(logs, lo, hi) <= |logs|
    decreases |logs|
  {
    if logs != [] {
      CountWithinMonotone(logs[..|logs| - 1], lo, hi, lo', hi');
    }
  }

  // ------------------------------------------------------------ everything

  datatype Report = Report(overview: Overview, totalSpending: int, byMonth: seq<MonthSpend>, byCategory: seq<Entry<string>>,
                           completedThisMonth: nat, completedLastMonth: nat,
                           mostCommonTasks: seq<Entry<string>>, byType: seq<Entry<string>>,
                           mostMaintained: seq<Maintained>)

  /** `generateAnalytics`, with the previous month counted whole. */
  method GenerateAnalytics(cal: Calendar, items: seq<Item>, tasks: seq<Task>, logs: seq<Log>, now: Instant)
    returns (r: Report)
    ensures r.overview == OverviewOf(items, tasks, logs, now)
    ensures r.totalSpending == TotalSpend(logs)
    ensures Sum(Totals(r.byCategory)) == r.totalSpending - OrphanSpend(items, logs)
    ensures |r.byMonth| == 6 && forall k :: 0 <= k < 6 ==> r.byMonth[k] == MonthEntry(cal, logs, now, 5 - k)
    ensures r.byCategory == Accumulate(CategoryPairs(items, logs))
    ensures r.completedThisMonth == CompletedThisMonth(cal, logs, now)
    ensures r.completedLastMonth == CompletedLastMonth(cal, logs, now)
    ensures r.mostCommonTasks == Take(SortBy(Accumulate(TaskNamePairs(tasks, logs)), MinusTotal), 10)
    ensures r.byType == Accumulate(TypePairs(items))
    ensures r.mostMaintained == Take(SortBy(Labelled(items, Accumulate(ItemIdPairs(logs))), MinusTaskCount), 5)
  {
    var overview := OverviewOf(items, tasks, logs, now);
    var byMonth := ByMonth(cal, logs, now);
    var byCategory := ByCategory(items, logs);
    var common := MostCommonTasks(tasks, logs);
    var byType := ByType(items);
    var maintained := MostMaintained(items, logs);
    ByCategorySum(items, logs);
    r := Report(overview, TotalSpend(logs), byMonth, byCategory, CompletedThisMonth(cal, logs, now), CompletedLastMonth(cal, logs, now),
                common, byType, maintained);
  }
}
