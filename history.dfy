/** The maintenance history of `src/screens/history/HistoryScreen.tsx`: the
    fifty newest logs, newest first, grouped by calendar day in order of first
    appearance, and the label of each day. The day of an instant
    (`format(date, 'yyyy-MM-dd')`) is a function given as a parameter. */
module History {
  import opened Seqs
  import opened Types
  import opened Sorting
  import opened Tally

  const MaxRecent: nat := 50

  /** Newer logs get smaller keys, so sorting by the key puts them first. */
  function NewestFirstKey(l: Log): int
  {
    -l.completedAt
  }

  /** `recentLogs`: a sorted copy cut to fifty. */
  function Recent(logs: seq<Log>): seq<Log>
  {
    Take(SortBy(logs, NewestFirstKey), MaxRecent)
  }

  /** The list holds `min(50, |logs|)` logs of the collection, newest
      first. */
  lemma RecentOrdered(logs: seq<Log>)
    ensures |Recent(logs)| == if |logs| < MaxRecent then |logs| else MaxRecent
    ensures multiset(Recent(logs)) <= multiset(logs)
    ensures var r := Recent(logs);
      forall i, j :: 0 <= i < j < |r| ==> r[i].completedAt >= r[j].completedAt
  {
    var sorted := SortBy(logs, NewestFirstKey);
    var r := Recent(logs);
    assert SortedBy(sorted, NewestFirstKey);
    assert sorted == r + sorted[|r|..];
    assert multiset(sorted) == multiset(r) + multiset(sorted[|r|..]);
    forall i, j | 0 <= i < j < |r|
      ensures r[i].completedAt >= r[j].completedAt
    {
      assert r[i] == sorted[i] && r[j] == sorted[j];
      assert NewestFirstKey(sorted[i]) <= NewestFirstKey(sorted[j]);
    }
  }

  /** No log left out is newer than the oldest one kept. */
  lemma RecentAreNewest(logs: seq<Log>, l: Log)
    requires l in logs && |Recent(logs)| > 0
    requires l.completedAt > Recent(logs)[|Recent(logs)| - 1].completedAt
    ensures l in Recent(logs)
  {
    var sorted := SortBy(logs, NewestFirstKey);
    var r := Recent(logs);
    assert SortedBy(sorted, NewestFirstKey);
    assert l in multiset(sorted);
    var k :| 0 <= k < |sorted| && sorted[k] == l;
    assert k < |r|;
    assert r[k] == l;
  }

  /** One day's logs under its `yyyy-MM-dd` key. */
  datatype Group = Group(date: string, logs: seq<Log>)

  function GroupDates(gs: seq<Group>): (r: seq<string>)
    ensures |r| == |gs|
    ensures forall i :: 0 <= i < |gs| ==> r[i] == gs[i].date
  {
    seq(|gs|, i requires 0 <= i < |gs| => gs[i].date)
  }

  /** `groups.find(g => g.date === key)`, as the position of the first group
      with that key, or -1. */
  function FirstIndexOf(gs: seq<Group>, key: string): (r: int)
    ensures -1 <= r < |gs|
    ensures r == -1 <==> key !in GroupDates(gs)
    ensures r >= 0 ==> gs[r].date == key && forall m :: 0 <= m < r ==> gs[m].date != key
  {
    if gs == [] then -1
    else if gs[0].date == key then 0
    else
      var rest := FirstIndexOf(gs[1..], key);
      assert GroupDates(gs) == [gs[0].date] + GroupDates(gs[1..]);
      if rest < 0 then -1 else rest + 1
  }

  /** One step of the `forEach`: the log joins its day's group, or opens a new
      group at the end. */
  function Place(gs: seq<Group>, log: Log, key: string): seq<Group>
  {
    var i := FirstIndexOf(gs, key);
    if i >= 0 then gs[i := Group(key, gs[i].logs + [log])] else gs + [Group(key, [log])]
  }

  /** `groupedLogs` for the given logs. */
  function Grouped(logs: seq<Log>, dayKey: Instant -> string): seq<Group>
  {
    if logs == [] then []
    else
      var last := logs[|logs| - 1];
      Place(Grouped(logs[..|logs| - 1], dayKey), last, dayKey(last.completedAt))
  }

  /** `groups.find(...)` as a loop from the front. */
  method LocateGroup(groups: seq<Group>, key: string) returns (found: int)
    ensures found == FirstIndexOf(groups, key)
  {
    found := 0;
    while found < |groups|
      invariant 0 <= found <= |groups|
      invariant forall m :: 0 <= m < found ==> groups[m].date != key
    {
      if groups[found].date == key {
        return;
      }
      found := found + 1;
    }
    found := -1;
  }

  /** The memoised grouping: each log is pushed onto its day's group, which
      is found by key or created. */
  method GroupLogs(recent: seq<Log>, dayKey: Instant -> string) returns (groups: seq<Group>)
    ensures groups == Grouped(recent, dayKey)
  {
    groups := [];
    var i := 0;
    while i < |recent|
      invariant 0 <= i <= |recent|
      invariant groups == Grouped(recent[..i], dayKey)
    {
      var log := recent[i];
      var dateStr := dayKey(log.completedAt);
      var existing := LocateGroup(groups, dateStr);
      assert recent[..i + 1][..i] == recent[..i];
      if existing >= 0 {
        groups := groups[existing := Group(dateStr, groups[existing].logs + [log])];
      } else {
        groups := groups + [Group(dateStr, [log])];
      }
      i := i + 1;
    }
    assert recent[..|recent|] == recent;
  }

  function DaysOf(logs: seq<Log>, dayKey: Instant -> string): (r: seq<string>)
    ensures |r| == |logs|
    ensures forall i :: 0 <= i < |logs| ==> r[i] == dayKey(logs[i].completedAt)
  {
    seq(|logs|, i requires 0 <= i < |logs| => dayKey(logs[i].completedAt))
  }

  /** The group keys are the days of the logs without repeats, in order of
      first appearance; so they are distinct. */
  lemma {:induction false} GroupedDates(logs: seq<Log>, dayKey: Instant -> string)
    ensures GroupDates(Grouped(logs, dayKey)) == Dedup(DaysOf(logs, dayKey))
    ensures Distinct(GroupDates(Grouped(logs, dayKey)))
    decreases |logs|
  {
    if logs != [] {
      var front := logs[..|logs| - 1];
      var last := logs[|logs| - 1];
      var key := dayKey(last.completedAt);
      GroupedDates(front, dayKey);
      var gs := Grouped(front, dayKey);
      var days := DaysOf(logs, dayKey);
      assert days[..|days| - 1] == DaysOf(front, dayKey);
      assert key in GroupDates(gs) <==> key in DaysOf(front, dayKey);
      var i := FirstIndexOf(gs, key);
      if i >= 0 {
        assert GroupDates(Place(gs, last, key)) == GroupDates(gs);
      } else {
        assert GroupDates(Place(gs, last, key)) == GroupDates(gs) + [key];
      }
    }
  }

  function OnDay(dayKey: Instant -> string, key: string): Log -> bool
  {
    (l: Log) => dayKey(l.completedAt) == key
  }

  /** Each group holds exactly the logs of its day, in the order of the
      list. */
  lemma {:induction false} GroupedLogs(logs: seq<Log>, dayKey: Instant -> string)
    ensures var gs := Grouped(logs, dayKey);
      forall i :: 0 <= i < |gs| ==> gs[i].logs == Filter(logs, OnDay(dayKey, gs[i].date))
    decreases |logs|
  {
    if logs != [] {
      var front := logs[..|logs| - 1];
      var last := logs[|logs| - 1];
      var key := dayKey(last.completedAt);
      GroupedLogs(front, dayKey);
      GroupedDates(front, dayKey);
      var gs := Grouped(front, dayKey);
      var gs' := Grouped(logs, dayKey);
      var i := FirstIndexOf(gs, key);
      forall m | 0 <= m < |gs'|
        ensures gs'[m].logs == Filter(logs, OnDay(dayKey, gs'[m].date))
      {
        var p := OnDay(dayKey, gs'[m].date);
        if m < |gs| {
          assert gs[m].logs == Filter(front, p);
        }
        if i >= 0 && m == i {
          assert p(last);
        } else if i < 0 && m == |gs| {
          assert gs'[m] == Group(key, [last]);
          assert key !in DaysOf(front, dayKey);
          forall n | 0 <= n < |front|
            ensures !p(front[n])
          {
            assert DaysOf(front, dayKey)[n] == dayKey(front[n].completedAt);
          }
          FilterNone(front, p);
        } else {
          assert gs'[m] == gs[m];
          assert !p(last);
        }
      }
    }
  }

  /** Every log lands in the group keyed by its day, and in no other. */
  lemma LogInOneGroup(logs: seq<Log>, dayKey: Instant -> string, n: int) returns (j: int)
    requires 0 <= n < |logs|
    ensures var gs := Grouped(logs, dayKey);
      && 0 <= j < |gs| && gs[j].date == dayKey(logs[n].completedAt) && logs[n] in gs[j].logs
      && forall j' :: 0 <= j' < |gs| && logs[n] in gs[j'].logs ==> j' == j
  {
    var gs := Grouped(logs, dayKey);
    var key := dayKey(logs[n].completedAt);
    GroupedDates(logs, dayKey);
    GroupedLogs(logs, dayKey);
    assert DaysOf(logs, dayKey)[n] == key;
    assert key in GroupDates(gs);
    j := FirstIndexOf(gs, key);
    assert OnDay(dayKey, key)(logs[n]);
    forall j' | 0 <= j' < |gs| && logs[n] in gs[j'].logs
      ensures j' == j
    {
      assert OnDay(dayKey, gs[j'].date)(logs[n]);
      assert GroupDates(gs)[j'] == GroupDates(gs)[j];
    }
  }

  /** How `getDateLabel` names a day. */
  datatype DayName = TodayName | YesterdayName | LongDate(date: string)

  /** `getDateLabel`, given the keys of today and of yesterday. */
  function DateLabel(dateStr: string, todayKey: string, yesterdayKey: string): (r: DayName)
    ensures r == TodayName <==> dateStr == todayKey
    ensures r == YesterdayName <==> dateStr != todayKey && dateStr == yesterdayKey
    ensures r.LongDate? ==> r.date == dateStr
  {
    if dateStr == todayKey then TodayName
    else if dateStr == yesterdayKey then YesterdayName
    else LongDate(dateStr)
  }

  /** Since group keys are distinct, at most one group is headed 'Today' and
      at most one 'Yesterday'. */
  lemma OneTodayOneYesterday(logs: seq<Log>, dayKey: Instant -> string, todayKey: string, yesterdayKey: string,
                             i: int, j: int)
    requires var gs := Grouped(logs, dayKey);
      0 <= i < |gs| && 0 <= j < |gs|
      && DateLabel(gs[i].date, todayKey, yesterdayKey) == DateLabel(gs[j].date, todayKey, yesterdayKey)
      && !DateLabel(gs[i].date, todayKey, yesterdayKey).LongDate?
    ensures i == j
  {
    var gs := Grouped(logs, dayKey);
    GroupedDates(logs, dayKey);
    assert GroupDates(gs)[i] == GroupDates(gs)[j];
  }
}
