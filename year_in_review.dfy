/** The yearly summary of `src/screens/stats/YearInReviewScreen.tsx`: this
    year's and last year's completions and spending, their growth, the five
    most frequent task names, the number of distinct items maintained and the
    current streak of months with a completion. The calendar is a parameter:
    the year boundaries are instants, and `monthOf` numbers months
    consecutively (twelve per year), so that `subMonths(now, i)` falls in
    month `monthOf(now) - i` and two instants share month and year exactly
    when their numbers agree. */
module YearInReview {
  import opened Seqs
  import opened Types
  import opened Tally
  import opened Sorting
  import opened Text
  import Analytics

  const MaxTopTasks: nat := 5
  const StreakMonths: nat := 12

  /** `isWithinInterval(date, { start, end })`: both ends included. */
  function Within(start: Instant, end: Instant): Log -> bool
  {
    (l: Log) => start <= l.completedAt <= end
  }

  /** The logs from the start of the year up to now. */
  function ThisYearLogs(logs: seq<Log>, yearStart: Instant, now: Instant): seq<Log>
  {
    Filter(logs, Within(yearStart, now))
  }

  /** The logs of the whole previous year. */
  function LastYearLogs(logs: seq<Log>, lastYearStart: Instant, lastYearEnd: Instant): seq<Log>
  {
    Filter(logs, Within(lastYearStart, lastYearEnd))
  }

  /** `previous > 0 ? ((current - previous) / previous) * 100 : 0`. */
  function Growth(current: int, previous: int): (r: real)
    ensures previous <= 0 ==> r == 0.0
    ensures previous > 0 ==> r * (previous as real) == ((current - previous) * 100) as real
    ensures previous > 0 ==> (r > 0.0 <==> current > previous) && (r == 0.0 <==> current == previous)
  {
    if previous > 0 then ((current - previous) as real / previous as real) * 100.0 else 0.0
  }

  /** `task?.name || 'Unknown'`: the log's task name, or 'Unknown' when the
      task is gone or has an empty name. */
  function YearName(tasks: seq<Task>, log: Log): (r: string)
    ensures FindTask(tasks, log.taskId).None? ==> r == "Unknown"
    ensures FindTask(tasks, log.taskId).Some? && FindTask(tasks, log.taskId).value.name != "" ==>
      r == FindTask(tasks, log.taskId).value.name
  {
    var t := FindTask(tasks, log.taskId);
    if t.Some? && t.value.name != "" then t.value.name else "Unknown"
  }

  /** One `(name, 1)` pair per log. */
  function NamePairs(tasks: seq<Task>, logs: seq<Log>): (r: seq<(string, int)>)
    ensures |r| == |logs|
    ensures forall i :: 0 <= i < |logs| ==> r[i] == (YearName(tasks, logs[i]), 1)
  {
    seq(|logs|, i requires 0 <= i < |logs| => (YearName(tasks, logs[i]), 1))
  }

  /** The number of logs counted under `name`. */
  function CountFor(tasks: seq<Task>, logs: seq<Log>, name: string): nat
  {
    if logs == [] then 0
    else CountFor(tasks, logs[..|logs| - 1], name) + (if YearName(tasks, logs[|logs| - 1]) == name then 1 else 0)
  }

  /** A property key ECMAScript treats as an array index: a decimal numeral
      without a leading zero, below 2^32 - 1. */
  predicate IsArrayIndex(k: string)
  {
    && |k| >= 1
    && (forall i :: 0 <= i < |k| ==> '0' <= k[i] <= '9')
    && (k[0] != '0' || |k| == 1)
    && DigitsValue(k) < 0xFFFF_FFFF
  }

  predicate IndexKeyed(e: Entry<string>)
  {
    IsArrayIndex(e.key)
  }

  predicate NameKeyed(e: Entry<string>)
  {
    !IsArrayIndex(e.key)
  }

  function IndexValue(e: Entry<string>): int
  {
    DigitsValue(e.key)
  }

  /** `Object.entries` of the plain object the counts are kept in, given its
      properties in creation order: array-index keys come first in ascending
      numeric order, then the other keys in creation order. */
  function ObjectEntries(counts: seq<Entry<string>>): seq<Entry<string>>
  {
    SortBy(Filter(counts, IndexKeyed), IndexValue) + Filter(counts, NameKeyed)
  }

  /** The listing holds the same entries as the counter, as many. */
  lemma ObjectEntriesMembers(counts: seq<Entry<string>>)
    ensures |ObjectEntries(counts)| == |counts|
    ensures forall x :: x in ObjectEntries(counts) <==> x in counts
  {
    var r := ObjectEntries(counts);
    FilterSplitLength(counts, IndexKeyed, NameKeyed);
    forall x ensures x in r <==> x in counts
    {
      SortedPartMembers(counts, IndexKeyed, NameKeyed, IndexValue, x);
    }
  }

  /** In the listing the array-index keys form a prefix in ascending
      numeric order, and the other keys follow in creation order. */
  lemma ObjectEntriesOrder(counts: seq<Entry<string>>)
    ensures var r := ObjectEntries(counts);
      var n := |Filter(counts, IndexKeyed)|;
      && n <= |r|
      && (forall i :: 0 <= i < n ==> IsArrayIndex(r[i].key))
      && (forall i, j :: 0 <= i < j < n ==> DigitsValue(r[i].key) <= DigitsValue(r[j].key))
      && r[n..] == Filter(counts, NameKeyed)
      && (forall i :: n <= i < |r| ==> !IsArrayIndex(r[i].key))
  {
    SortedPartOrder(counts, IndexKeyed, NameKeyed, IndexValue);
  }

  /** Sorting the elements that satisfy `p` and appending the rest keeps
      every element, as many as there are. */
  lemma SortedPartMembers<T>(s: seq<T>, p: T -> bool, q: T -> bool, key: T -> int, x: T)
    requires forall y :: q(y) <==> !p(y)
    ensures |SortBy(Filter(s, p), key) + Filter(s, q)| == |s|
    ensures x in SortBy(Filter(s, p), key) + Filter(s, q) <==> x in s
  {
    FilterSplitLength(s, p, q);
    SortByHas(Filter(s, p), key, x);
  }

  /** In that listing the elements satisfying `p` come first, by ascending
      key, and the rest follow in their original order. */
  lemma SortedPartOrder<T>(s: seq<T>, p: T -> bool, q: T -> bool, key: T -> int)
    requires forall x :: q(x) <==> !p(x)
    ensures var r := SortBy(Filter(s, p), key) + Filter(s, q);
      var n := |Filter(s, p)|;
      && n <= |r|
      && (forall i :: 0 <= i < n ==> p(r[i]))
      && (forall i, j :: 0 <= i < j < n ==> key(r[i]) <= key(r[j]))
      && r[n..] == Filter(s, q)
      && (forall i :: n <= i < |r| ==> !p(r[i]))
  {
    SortedPrefix(SortBy(Filter(s, p), key), Filter(s, p), Filter(s, q), p, key);
    RestSuffix(SortBy(Filter(s, p), key), Filter(s, q), p, q);
  }

  lemma SortedPrefix<T>(sorted: seq<T>, idx: seq<T>, rest: seq<T>, p: T -> bool, key: T -> int)
    requires sorted == SortBy(idx, key)
    requires forall i :: 0 <= i < |idx| ==> p(idx[i])
    ensures forall i :: 0 <= i < |idx| ==> p((sorted + rest)[i])
    ensures forall i, j :: 0 <= i < j < |idx| ==> key((sorted + rest)[i]) <= key((sorted + rest)[j])
  {
    forall i | 0 <= i < |idx| ensures p((sorted + rest)[i])
    {
      SortByHas(idx, key, sorted[i]);
    }
  }

  lemma RestSuffix<T>(sorted: seq<T>, rest: seq<T>, p: T -> bool, q: T -> bool)
    requires forall x :: q(x) <==> !p(x)
    requires forall i :: 0 <= i < |rest| ==> q(rest[i])
    ensures (sorted + rest)[|sorted|..] == rest
    ensures forall i :: |sorted| <= i < |sorted + rest| ==> !p((sorted + rest)[i])
  {
    var r := sorted + rest;
    forall i | |sorted| <= i < |r| ensures !p(r[i])
    {
      assert r[i] == rest[i - |sorted|];
    }
    assert r[|sorted|..] == rest;
  }

  /** A task named "2" is listed before one named "Oil", whichever was
      completed first. */
  lemma IndexKeyListedFirst()
    ensures ObjectEntries([Entry("Oil", 1), Entry("2", 1)]) == [Entry("2", 1), Entry("Oil", 1)]
  {
    assert !IsArrayIndex("Oil") by { assert !('0' <= "Oil"[0] <= '9'); }
    assert DigitsValue("2") == 2;
    assert IsArrayIndex("2");
    var counts := [Entry("Oil", 1), Entry("2", 1)];
    assert counts[..1] == [Entry("Oil", 1)];
    assert Filter([Entry("Oil", 1)], IndexKeyed) == [];
    assert Filter(counts, IndexKeyed) == [Entry("2", 1)];
    assert Filter(counts, NameKeyed) == [Entry("Oil", 1)];
  }

  /** `topTasks`: the counts as `Object.entries` lists them, sorted by
      descending count, first five. */
  function TopTasks(tasks: seq<Task>, logs: seq<Log>): seq<Entry<string>>
  {
    Take(SortBy(ObjectEntries(Accumulate(NamePairs(tasks, logs))), Analytics.MinusTotal), MaxTopTasks)
  }

  /** The `reduce` over this year's logs into the name counts. */
  method CountNames(tasks: seq<Task>, logs: seq<Log>) returns (acc: seq<Entry<string>>)
    ensures acc == Accumulate(NamePairs(tasks, logs))
  {
    acc := [];
    var n := 0;
    while n < |logs|
      invariant 0 <= n <= |logs|
      invariant acc == Accumulate(NamePairs(tasks, logs[..n]))
    {
      var name := YearName(tasks, logs[n]);
      assert NamePairs(tasks, logs[..n + 1]) == NamePairs(tasks, logs[..n]) + [(name, 1)];
      AccumulateDistinct(NamePairs(tasks, logs[..n]));
      acc := Increment(acc, name, 1);
      AccumulateSnoc(NamePairs(tasks, logs[..n]), (name, 1));
      n := n + 1;
    }
    assert logs[..n] == logs;
  }

  lemma {:induction false} NamePairsSum(tasks: seq<Task>, logs: seq<Log>, name: string)
    ensures SumFor(NamePairs(tasks, logs), name) == CountFor(tasks, logs, name)
    decreases |logs|
  {
    if logs != [] {
      NamePairsSum(tasks, logs[..|logs| - 1], name);
      assert NamePairs(tasks, logs)[..|logs| - 1] == NamePairs(tasks, logs[..|logs| - 1]);
    }
  }

  /** Every log carries weight one, so the weights add up to the logs. */
  lemma {:induction false} NamePairsWeight(tasks: seq<Task>, logs: seq<Log>)
    ensures Sum(Weights(NamePairs(tasks, logs))) == |logs|
    decreases |logs|
  {
    if logs != [] {
      NamePairsWeight(tasks, logs[..|logs| - 1]);
      assert Weights(NamePairs(tasks, logs))[..|logs| - 1] == Weights(NamePairs(tasks, logs[..|logs| - 1]));
    }
  }

  lemma {:induction false} CountForPositive(tasks: seq<Task>, logs: seq<Log>, j: int)
    requires 0 <= j < |logs|
    ensures CountFor(tasks, logs, YearName(tasks, logs[j])) >= 1
    decreases |logs|
  {
    if j < |logs| - 1 {
      var front := logs[..|logs| - 1];
      assert front[j] == logs[j];
      CountForPositive(tasks, front, j);
    }
  }

  /** At most five names with non-increasing counts; each count is the number
      of this year's logs under that name; before the cut the counts add up
      to all the logs. */
  lemma TopTasksFacts(tasks: seq<Task>, logs: seq<Log>)
    ensures var r := TopTasks(tasks, logs);
      && |r| <= MaxTopTasks
      && (forall i, j :: 0 <= i < j < |r| ==> r[i].total >= r[j].total)
      && (forall i :: 0 <= i < |r| ==> r[i].total == CountFor(tasks, logs, r[i].key) >= 1)
    ensures Sum(Totals(Accumulate(NamePairs(tasks, logs)))) == |logs|
  {
    TopTasksOrdered(tasks, logs);
    forall i | 0 <= i < |TopTasks(tasks, logs)|
      ensures TopTasks(tasks, logs)[i].total == CountFor(tasks, logs, TopTasks(tasks, logs)[i].key) >= 1
    {
      TopTaskListed(tasks, logs, i);
      ListedCount(tasks, logs, TopTasks(tasks, logs)[i]);
    }
    AccumulateSum(NamePairs(tasks, logs));
    NamePairsWeight(tasks, logs);
  }

  lemma TopTasksOrdered(tasks: seq<Task>, logs: seq<Log>)
    ensures var r := TopTasks(tasks, logs);
      && |r| <= MaxTopTasks
      && (forall i, j :: 0 <= i < j < |r| ==> r[i].total >= r[j].total)
  {
    TopOfSorted(ObjectEntries(Accumulate(NamePairs(tasks, logs))), Analytics.MinusTotal, MaxTopTasks);
  }

  lemma TopTaskListed(tasks: seq<Task>, logs: seq<Log>, i: int)
    requires 0 <= i < |TopTasks(tasks, logs)|
    ensures TopTasks(tasks, logs)[i] in ObjectEntries(Accumulate(NamePairs(tasks, logs)))
  {
    var listed := ObjectEntries(Accumulate(NamePairs(tasks, logs)));
    var sorted := SortBy(listed, Analytics.MinusTotal);
    assert TopTasks(tasks, logs)[i] == sorted[i];
    SortByHas(listed, Analytics.MinusTotal, sorted[i]);
  }

  /** Every listed entry counts the logs under its name, at least one. */
  lemma ListedCount(tasks: seq<Task>, logs: seq<Log>, x: Entry<string>)
    requires x in ObjectEntries(Accumulate(NamePairs(tasks, logs)))
    ensures x.total == CountFor(tasks, logs, x.key) >= 1
  {
    var pairs := NamePairs(tasks, logs);
    var acc := Accumulate(pairs);
    SortedPartMembers(acc, IndexKeyed, NameKeyed, IndexValue, x);
    var k :| 0 <= k < |acc| && acc[k] == x;
    var j := PairOf(pairs, k);
    NamePairsSum(tasks, logs, x.key);
    CountForPositive(tasks, logs, j);
  }

  /** A log whose task was deleted is counted under 'Unknown'. */
  lemma DeletedTaskCountedAsUnknown(tasks: seq<Task>, logs: seq<Log>, j: int) returns (k: int)
    requires 0 <= j < |logs| && FindTask(tasks, logs[j].taskId).None?
    ensures var acc := Accumulate(NamePairs(tasks, logs));
      0 <= k < |acc| && acc[k].key == "Unknown" && acc[k].total == CountFor(tasks, logs, "Unknown") >= 1
  {
    var pairs := NamePairs(tasks, logs);
    k := EntryOf(pairs, j);
    NamePairsSum(tasks, logs, "Unknown");
    CountForPositive(tasks, logs, j);
  }

  /** `new Set(thisYearLogs.map(l => l.itemId))`. */
  function ItemIds(logs: seq<Log>): (r: set<string>)
    ensures forall id :: id in r <==> exists i :: 0 <= i < |logs| && logs[i].itemId == id
  {
    if logs == [] then {}
    else
      var front := logs[..|logs| - 1];
      var r := ItemIds(front) + {logs[|logs| - 1].itemId};
      assert forall i :: 0 <= i < |front| ==> front[i] == logs[i];
      r
  }

  /** `itemsMaintained` counts distinct items: never more than the logs, and
      zero only without logs. */
  lemma {:induction false} ItemsMaintainedBounds(logs: seq<Log>)
    ensures |ItemIds(logs)| <= |logs|
    ensures |ItemIds(logs)| == 0 <==> logs == []
    decreases |logs|
  {
    if logs != [] {
      ItemsMaintainedBounds(logs[..|logs| - 1]);
      assert logs[|logs| - 1].itemId in ItemIds(logs);
    }
  }

  /** Logs sharing one item count once. */
  lemma SameItemCountsOnce(logs: seq<Log>, id: string)
    requires |logs| > 0 && forall i :: 0 <= i < |logs| ==> logs[i].itemId == id
    ensures |ItemIds(logs)| == 1
  {
    assert ItemIds(logs) == {id};
  }

  function InMonth(monthOf: Instant -> int, m: int): Log -> bool
  {
    (l: Log) => monthOf(l.completedAt) == m
  }

  /** `subMonths(now, i)`'s month holds a log: `i` months before month
      `current`. */
  predicate ActiveMonthsBack(logs: seq<Log>, monthOf: Instant -> int, current: int, i: int)
  {
    exists k :: 0 <= k < |logs| && monthOf(logs[k].completedAt) == current - i
  }

  /** `monthLogs.length > 0` decides exactly that. */
  lemma MonthLogsNonEmpty(logs: seq<Log>, monthOf: Instant -> int, current: int, i: int)
    ensures |Filter(logs, InMonth(monthOf, current - i))| > 0 <==> ActiveMonthsBack(logs, monthOf, current, i)
  {
    var p := InMonth(monthOf, current - i);
    if |Filter(logs, p)| > 0 {
      var x := Filter(logs, p)[0];
      assert p(x) && x in logs;
    }
    if ActiveMonthsBack(logs, monthOf, current, i) {
      var k :| 0 <= k < |logs| && monthOf(logs[k].completedAt) == current - i;
      assert p(logs[k]);
    }
  }

  /** The streak from `i` months back: months `current - i`,
      `current - i - 1`, ... that each hold a log, up to the twelfth. */
  function StreakFrom(logs: seq<Log>, monthOf: Instant -> int, current: int, i: nat): nat
    decreases StreakMonths - i
  {
    if i >= StreakMonths then 0
    else if ActiveMonthsBack(logs, monthOf, current, i) then 1 + StreakFrom(logs, monthOf, current, i + 1)
    else 0
  }

  function Streak(logs: seq<Log>, monthOf: Instant -> int, current: int): nat
  {
    StreakFrom(logs, monthOf, current, 0)
  }

  /** `thisYearLogs.filter(...)` for the month `i` months back. */
  method MonthLogs(logs: seq<Log>, monthOf: Instant -> int, current: int, i: int) returns (r: seq<Log>)
    ensures r == Filter(logs, InMonth(monthOf, current - i))
    ensures |r| > 0 <==> ActiveMonthsBack(logs, monthOf, current, i)
  {
    r := Filter(logs, InMonth(monthOf, current - i));
    MonthLogsNonEmpty(logs, monthOf, current, i);
  }

  /** The streak loop: count months back from the current one while each
      holds a log, and stop at the first empty one. */
  method ComputeStreak(thisYear: seq<Log>, monthOf: Instant -> int, now: Instant) returns (streak: nat)
    ensures streak == Streak(thisYear, monthOf, monthOf(now))
  {
    streak := 0;
    var i: nat := 0;
    while i < StreakMonths
      invariant i <= StreakMonths && streak == i
      invariant Streak(thisYear, monthOf, monthOf(now)) == i + StreakFrom(thisYear, monthOf, monthOf(now), i)
    {
      var monthLogs := MonthLogs(thisYear, monthOf, monthOf(now), i);
      if |monthLogs| > 0 {
        assert StreakFrom(thisYear, monthOf, monthOf(now), i) == 1 + StreakFrom(thisYear, monthOf, monthOf(now), i + 1);
        streak := streak + 1;
      } else {
        assert StreakFrom(thisYear, monthOf, monthOf(now), i) == 0;
        break;
      }
      i := i + 1;
    }
  }

  /** The streak is a run: every month it counts holds a log and, short of
      twelve, the month before the run holds none. */
  lemma {:induction false} StreakFromIsRun(logs: seq<Log>, monthOf: Instant -> int, current: int, i: nat)
    requires i <= StreakMonths
    ensures var s := StreakFrom(logs, monthOf, current, i);
      && i + s <= StreakMonths
      && (forall j :: i <= j < i + s ==> ActiveMonthsBack(logs, monthOf, current, j))
      && (i + s < StreakMonths ==> !ActiveMonthsBack(logs, monthOf, current, i + s))
    decreases StreakMonths - i
  {
    if i < StreakMonths && ActiveMonthsBack(logs, monthOf, current, i) {
      StreakFromIsRun(logs, monthOf, current, i + 1);
    }
  }

  /** The streak is zero exactly when the current month holds no log. */
  lemma StreakZeroIff(logs: seq<Log>, monthOf: Instant -> int, current: int)
    ensures Streak(logs, monthOf, current) == 0 <==> !ActiveMonthsBack(logs, monthOf, current, 0)
  {
  }

  /** Only this year's logs are scanned, so with a calendar whose month
      numbers never go back in time the streak never reaches past January. */
  lemma StreakWithinYear(logs: seq<Log>, monthOf: Instant -> int, yearStart: Instant, now: Instant)
    requires yearStart <= now
    requires forall a: Instant, b: Instant :: a <= b ==> monthOf(a) <= monthOf(b)
    ensures Streak(ThisYearLogs(logs, yearStart, now), monthOf, monthOf(now)) <= monthOf(now) - monthOf(yearStart) + 1
  {
    var ty := ThisYearLogs(logs, yearStart, now);
    StreakFromIsRun(ty, monthOf, monthOf(now), 0);
  }

  /** `yearlyStats`. */
  datatype YearlyStats = YearlyStats(
    tasksCompleted: nat,
    lastYearTasks: nat,
    taskGrowth: real,
    thisYearSpending: int,
    lastYearSpending: int,
    spendingGrowth: real,
    topTasks: seq<Entry<string>>,
    itemsMaintained: nat,
    totalItems: nat,
    streak: nat)

  /** The memoised computation, with the calendar values as parameters. */
  method ComputeYearlyStats(items: seq<Item>, tasks: seq<Task>, logs: seq<Log>, now: Instant,
                            yearStart: Instant, lastYearStart: Instant, lastYearEnd: Instant,
                            monthOf: Instant -> int) returns (r: YearlyStats)
    ensures r.tasksCompleted == |ThisYearLogs(logs, yearStart, now)|
    ensures r.lastYearTasks == |LastYearLogs(logs, lastYearStart, lastYearEnd)|
    ensures r.taskGrowth == Growth(r.tasksCompleted, r.lastYearTasks)
    ensures r.thisYearSpending == Analytics.TotalSpend(ThisYearLogs(logs, yearStart, now))
    ensures r.lastYearSpending == Analytics.TotalSpend(LastYearLogs(logs, lastYearStart, lastYearEnd))
    ensures r.spendingGrowth == Growth(r.thisYearSpending, r.lastYearSpending)
    ensures r.topTasks == TopTasks(tasks, ThisYearLogs(logs, yearStart, now))
    ensures r.itemsMaintained == |ItemIds(ThisYearLogs(logs, yearStart, now))|
    ensures r.totalItems == |items|
    ensures r.streak == Streak(ThisYearLogs(logs, yearStart, now), monthOf, monthOf(now))
  {
    var thisYear := ThisYearLogs(logs, yearStart, now);
    var lastYear := LastYearLogs(logs, lastYearStart, lastYearEnd);
    var spent := Analytics.TotalSpend(thisYear);
    var spentBefore := Analytics.TotalSpend(lastYear);
    var counts := CountNames(tasks, thisYear);
    var top := Take(SortBy(ObjectEntries(counts), Analytics.MinusTotal), MaxTopTasks);
    var streak := ComputeStreak(thisYear, monthOf, now);
    r := YearlyStats(|thisYear|, |lastYear|, Growth(|thisYear|, |lastYear|), spent, spentBefore,
                     Growth(spent, spentBefore), top, |ItemIds(thisYear)|, |items|, streak);
  }
}
