/** The two-week agenda of `src/screens/upcoming/UpcomingScreen.tsx`: for each
    of the next fourteen days the active tasks due within that day, sorted by
    due instant; the first three days are always shown, later days only when
    they hold a task. `today` is the start of the current day; a day is the
    closed interval from its start to one millisecond before the next. */
module Upcoming {
  import opened Seqs
  import opened Types
  import opened Sorting

  const Horizon: nat := 14
  const AlwaysShown: nat := 3

  datatype DayBucket = DayBucket(date: Instant, tasks: seq<Task>)

  function DayStart(today: Instant, k: int): Instant
  {
    AddDays(today, k)
  }

  /** `addDays(endOfDay(now), k)`: the last millisecond of day `k`. */
  function DayEnd(today: Instant, k: int): Instant
  {
    AddDays(today, k) + DAY - 1
  }

  /** The filter of one day: active and due within the day, both ends
      included. */
  predicate DueOn(today: Instant, k: int, t: Task)
  {
    t.isActive && DayStart(today, k) <= t.nextDue <= DayEnd(today, k)
  }

  function DueOnDay(today: Instant, k: int): Task -> bool
  {
    (t: Task) => DueOn(today, k, t)
  }

  function NextDueKey(t: Task): int
  {
    t.nextDue
  }

  /** `tasksForDay`: the day's tasks, earliest first. */
  function TasksForDay(tasks: seq<Task>, today: Instant, k: int): seq<Task>
  {
    SortBy(Filter(tasks, DueOnDay(today, k)), NextDueKey)
  }

  predicate Shown(tasks: seq<Task>, today: Instant, k: nat)
  {
    |TasksForDay(tasks, today, k)| > 0 || k < AlwaysShown
  }

  function ShownIn(tasks: seq<Task>, today: Instant): nat -> bool
  {
    (k: nat) => Shown(tasks, today, k)
  }

  /** The offsets below `n` that `shown` keeps, in increasing order. */
  function KeptWhere(shown: nat -> bool, n: nat): seq<nat>
  {
    if n == 0 then []
    else KeptWhere(shown, n - 1) + (if shown(n - 1) then [n - 1] else [])
  }

  /** The day offsets that get a bucket. */
  function KeptDays(tasks: seq<Task>, today: Instant): seq<nat>
  {
    KeptWhere(ShownIn(tasks, today), Horizon)
  }

  function BucketAt(tasks: seq<Task>, today: Instant): nat -> DayBucket
  {
    (k: nat) => DayBucket(DayStart(today, k), TasksForDay(tasks, today, k))
  }

  /** `upcomingByDay`, as a value. */
  function UpcomingDays(tasks: seq<Task>, today: Instant): seq<DayBucket>
  {
    Map(KeptDays(tasks, today), BucketAt(tasks, today))
  }

  lemma MapSnoc<T, U>(s: seq<T>, x: T, f: T -> U)
    ensures Map(s + [x], f) == Map(s, f) + [f(x)]
  {
    assert |Map(s + [x], f)| == |Map(s, f) + [f(x)]|;
    forall i | 0 <= i < |s| + 1
      ensures Map(s + [x], f)[i] == (Map(s, f) + [f(x)])[i]
    {
      if i < |s| {
        assert (s + [x])[i] == s[i];
      }
    }
  }

  /** One more day adds its bucket exactly when the day is shown. */
  lemma UpcomingStep(tasks: seq<Task>, today: Instant, i: nat)
    ensures var shown := ShownIn(tasks, today);
      Map(KeptWhere(shown, i + 1), BucketAt(tasks, today))
      == Map(KeptWhere(shown, i), BucketAt(tasks, today))
         + (if |TasksForDay(tasks, today, i)| > 0 || i < AlwaysShown
            then [DayBucket(AddDays(today, i), TasksForDay(tasks, today, i))] else [])
  {
    var shown := ShownIn(tasks, today);
    assert shown(i) == (|TasksForDay(tasks, today, i)| > 0 || i < AlwaysShown);
    if shown(i) {
      MapSnoc(KeptWhere(shown, i), i, BucketAt(tasks, today));
    }
  }

  /** The memoised loop over the fourteen days. */
  method UpcomingByDay(tasks: seq<Task>, today: Instant) returns (days: seq<DayBucket>)
    ensures days == UpcomingDays(tasks, today)
  {
    days := [];
    var i: nat := 0;
    while i < Horizon
      invariant i <= Horizon
      invariant days == Map(KeptWhere(ShownIn(tasks, today), i), BucketAt(tasks, today))
    {
      var dayStart := AddDays(today, i);
      var tasksForDay := SortBy(Filter(tasks, DueOnDay(today, i)), NextDueKey);
      UpcomingStep(tasks, today, i);
      if |tasksForDay| > 0 || i < AlwaysShown {
        days := days + [DayBucket(dayStart, tasksForDay)];
      }
      i := i + 1;
    }
  }

  /** The kept offsets stay below `n`, sit no lower than their position and
      rise strictly. */
  lemma {:induction false} KeptBounds(shown: nat -> bool, n: nat)
    ensures var ks := KeptWhere(shown, n);
      && |ks| <= n
      && (forall j :: 0 <= j < |ks| ==> j <= ks[j] < n)
      && (forall j, j' :: 0 <= j < j' < |ks| ==> ks[j] < ks[j'])
  {
    if n > 0 {
      KeptBounds(shown, n - 1);
    }
  }

  /** An offset below `n` is kept exactly when it is shown. */
  lemma {:induction false} KeptIff(shown: nat -> bool, n: nat, k: nat)
    requires k < n
    ensures k in KeptWhere(shown, n) <==> shown(k)
  {
    KeptBounds(shown, n - 1);
    if k < n - 1 {
      KeptIff(shown, n - 1, k);
    }
  }

  /** When the first three offsets are always shown they come first. */
  lemma {:induction false} KeptFirstThree(shown: nat -> bool, n: nat)
    requires forall k: nat :: k < AlwaysShown ==> shown(k)
    requires n >= AlwaysShown
    ensures |KeptWhere(shown, n)| >= AlwaysShown && KeptWhere(shown, n)[..AlwaysShown] == [0, 1, 2]
  {
    if n == AlwaysShown {
      assert KeptWhere(shown, 0) == [];
      assert KeptWhere(shown, 1) == [0];
      assert KeptWhere(shown, 2) == [0, 1];
    } else {
      KeptFirstThree(shown, n - 1);
      var front := KeptWhere(shown, n - 1);
      assert KeptWhere(shown, n)[..AlwaysShown] == front[..AlwaysShown];
    }
  }

  /** Bucket `j` is the bucket of the `j`-th kept day. */
  lemma BucketDay(tasks: seq<Task>, today: Instant, j: int) returns (k: nat)
    requires 0 <= j < |UpcomingDays(tasks, today)|
    ensures k < Horizon && k == KeptDays(tasks, today)[j] && j <= k
    ensures UpcomingDays(tasks, today)[j].date == AddDays(today, k)
    ensures UpcomingDays(tasks, today)[j].tasks == TasksForDay(tasks, today, k)
  {
    KeptBounds(ShownIn(tasks, today), Horizon);
    k := KeptDays(tasks, today)[j];
  }

  /** A task is in day `k`'s list exactly when it is an active task due within
      that day; the list is sorted by due instant and holds each such task as
      often as the task list does. */
  lemma TasksForDayIff(tasks: seq<Task>, today: Instant, k: int, t: Task)
    ensures t in TasksForDay(tasks, today, k) <==> t in tasks && DueOn(today, k, t)
    ensures multiset(TasksForDay(tasks, today, k)) == multiset(Filter(tasks, DueOnDay(today, k)))
    ensures var ts := TasksForDay(tasks, today, k);
      forall i, j :: 0 <= i < j < |ts| ==> ts[i].nextDue <= ts[j].nextDue
  {
    var ts := TasksForDay(tasks, today, k);
    assert SortedBy(ts, NextDueKey);
    var f := Filter(tasks, DueOnDay(today, k));
    if t in tasks && DueOn(today, k, t) {
      var i :| 0 <= i < |tasks| && tasks[i] == t;
      assert DueOnDay(today, k)(tasks[i]);
      assert t in multiset(f);
    }
    if t in ts {
      assert t in multiset(f);
    }
  }

  /** Two different days never share a due instant. */
  lemma DaysDisjoint(today: Instant, k: int, k': int, t: Task)
    requires DueOn(today, k, t) && DueOn(today, k', t)
    ensures k == k'
  {
  }

  /** At most fourteen buckets and at least three, the first three being
      today, tomorrow and the day after; dates strictly increase. */
  lemma UpcomingShape(tasks: seq<Task>, today: Instant)
    ensures AlwaysShown <= |UpcomingDays(tasks, today)| <= Horizon
    ensures forall j :: 0 <= j < AlwaysShown ==> UpcomingDays(tasks, today)[j].date == AddDays(today, j)
    ensures var r := UpcomingDays(tasks, today);
      forall j, j' :: 0 <= j < j' < |r| ==> r[j].date < r[j'].date
  {
    var ks := KeptDays(tasks, today);
    assert forall k: nat :: k < AlwaysShown ==> ShownIn(tasks, today)(k);
    KeptShape(ShownIn(tasks, today));
    var r := UpcomingDays(tasks, today);
    assert forall j :: 0 <= j < |r| ==> r[j].date == AddDays(today, ks[j]);
  }

  /** With the first three offsets always kept, between three and fourteen
      offsets are kept, rising strictly from 0, 1, 2. */
  lemma KeptShape(shown: nat -> bool)
    requires forall k: nat :: k < AlwaysShown ==> shown(k)
    ensures var ks := KeptWhere(shown, Horizon);
      && AlwaysShown <= |ks| <= Horizon
      && (forall j :: 0 <= j < AlwaysShown ==> ks[j] == j)
      && (forall j, j' :: 0 <= j < j' < |ks| ==> ks[j] < ks[j'])
  {
    var ks := KeptWhere(shown, Horizon);
    KeptBounds(shown, Horizon);
    KeptFirstThree(shown, Horizon);
    assert forall j :: 0 <= j < AlwaysShown ==> ks[j] == ks[..AlwaysShown][j];
  }

  /** A later day gets a bucket exactly when it holds a task. */
  lemma LaterDayShownIff(tasks: seq<Task>, today: Instant, k: nat)
    requires AlwaysShown <= k < Horizon
    ensures k in KeptDays(tasks, today) <==> |TasksForDay(tasks, today, k)| > 0
  {
    KeptIff(ShownIn(tasks, today), Horizon, k);
  }

  /** No task sits in two buckets. */
  lemma EachTaskAtMostOnce(tasks: seq<Task>, today: Instant, t: Task, j: int, j': int)
    requires 0 <= j < |UpcomingDays(tasks, today)| && 0 <= j' < |UpcomingDays(tasks, today)|
    requires t in UpcomingDays(tasks, today)[j].tasks && t in UpcomingDays(tasks, today)[j'].tasks
    ensures j == j'
  {
    var k := BucketDay(tasks, today, j);
    var k' := BucketDay(tasks, today, j');
    TasksForDayIff(tasks, today, k, t);
    TasksForDayIff(tasks, today, k', t);
    DaysDisjoint(today, k, k', t);
    KeptBounds(ShownIn(tasks, today), Horizon);
  }

  /** A task due before today or after the fourteenth day sits in no
      bucket. */
  lemma OutsideHorizonNowhere(tasks: seq<Task>, today: Instant, t: Task, j: int)
    requires t.nextDue < today || t.nextDue > DayEnd(today, Horizon - 1)
    requires 0 <= j < |UpcomingDays(tasks, today)|
    ensures t !in UpcomingDays(tasks, today)[j].tasks
  {
    var k := BucketDay(tasks, today, j);
    TasksForDayIff(tasks, today, k, t);
  }

  /** The label kinds `getDayLabel` chooses between; the weekday and date
      forms are formatted from the bucket's date. */
  datatype DayLabel = TodayLabel | TomorrowLabel | WeekdayLabel(date: Instant) | DateLabel(date: Instant)

  /** `getDayLabel(date, index)`. */
  function DayLabelAt(date: Instant, index: int): (r: DayLabel)
    ensures r == TodayLabel <==> index == 0
    ensures r == TomorrowLabel <==> index == 1
    ensures r.WeekdayLabel? <==> index < 7 && index != 0 && index != 1
    ensures r.DateLabel? <==> index >= 7
  {
    if index == 0 then TodayLabel
    else if index == 1 then TomorrowLabel
    else if index < 7 then WeekdayLabel(date)
    else DateLabel(date)
  }

  /** The labels as the screen computes them: from each bucket's position in
      the list. */
  function LabelsAsWritten(days: seq<DayBucket>): seq<DayLabel>
  {
    seq(|days|, j requires 0 <= j < |days| => DayLabelAt(days[j].date, j))
  }

  /** Whole days from today to a bucket's date. */
  function OffsetOf(today: Instant, date: Instant): int
  {
    (date - today) / DAY
  }

  /** The labels from each bucket's distance from today. */
  function Labels(days: seq<DayBucket>, today: Instant): seq<DayLabel>
  {
    seq(|days|, j requires 0 <= j < |days| => DayLabelAt(days[j].date, OffsetOf(today, days[j].date)))
  }

  /** Whole days from today to the start of day `k`. */
  lemma OffsetOfDay(today: Instant, k: int)
    ensures OffsetOf(today, AddDays(today, k)) == k
  {
    assert AddDays(today, k) - today == k * DAY;
  }

  /** Labelled by distance, 'Today' and 'Tomorrow' name exactly those days
      and a bare weekday is only used within the coming week. */
  lemma LabelTruthful(tasks: seq<Task>, today: Instant, j: int)
    requires 0 <= j < |UpcomingDays(tasks, today)|
    ensures var r := UpcomingDays(tasks, today);
      var l := Labels(r, today)[j];
      && (l == TodayLabel <==> r[j].date == today)
      && (l == TomorrowLabel <==> r[j].date == AddDays(today, 1))
      && (l.WeekdayLabel? <==> AddDays(today, 2) <= r[j].date < AddDays(today, 7))
  {
    var r := UpcomingDays(tasks, today);
    var k := BucketDay(tasks, today, j);
    OffsetOfDay(today, k);
    assert Labels(r, today)[j] == DayLabelAt(r[j].date, k);
  }

  /** For the three days always shown, position and distance agree, so the
      two labellings coincide there. */
  lemma FirstThreeLabelsAgree(tasks: seq<Task>, today: Instant, j: int)
    requires 0 <= j < AlwaysShown
    ensures j < |UpcomingDays(tasks, today)|
    ensures LabelsAsWritten(UpcomingDays(tasks, today))[j] == Labels(UpcomingDays(tasks, today), today)[j]
  {
    UpcomingShape(tasks, today);
    OffsetOfDay(today, j);
  }

  /** The one task due ten days from now puts its day fourth in the list,
      where the screen's positional label names only a weekday, although the
      day is more than a week away; labelled by distance it gets its date. */
  lemma PositionalLabelMisnamesDistantDay(t: Task, today: Instant)
    requires t.isActive && t.nextDue == AddDays(today, 10)
    ensures var r := UpcomingDays([t], today);
      && |r| == 4
      && r[3].date == AddDays(today, 10)
      && LabelsAsWritten(r)[3] == WeekdayLabel(AddDays(today, 10))
      && Labels(r, today)[3] == DateLabel(AddDays(today, 10))
  {
    OnlyDayTenKept(t, today);
    var r := UpcomingDays([t], today);
    assert r[3] == BucketAt([t], today)(10);
    OffsetOfDay(today, 10);
  }

  lemma OnlyDayTenKept(t: Task, today: Instant)
    requires t.isActive && t.nextDue == AddDays(today, 10)
    ensures KeptDays([t], today) == [0, 1, 2, 10]
  {
    var shown := ShownIn([t], today);
    forall k: nat | k < Horizon
      ensures shown(k) <==> k < AlwaysShown || k == 10
    {
      OnlyDayTen(t, today, k);
    }
    KeptFirstThreeAndTen(shown);
  }

  /** Keeping the first three offsets and the tenth, and no other below the
      horizon, gives exactly those four. */
  lemma KeptFirstThreeAndTen(shown: nat -> bool)
    requires forall k: nat :: k < Horizon ==> (shown(k) <==> k < AlwaysShown || k == 10)
    ensures KeptWhere(shown, Horizon) == [0, 1, 2, 10]
  {
    assert KeptWhere(shown, 3) == [0, 1, 2] by {
      assert KeptWhere(shown, 0) == [];
      assert KeptWhere(shown, 1) == [0];
      assert KeptWhere(shown, 2) == [0, 1];
    }
    assert KeptWhere(shown, 6) == [0, 1, 2] by {
      assert KeptWhere(shown, 4) == [0, 1, 2];
      assert KeptWhere(shown, 5) == [0, 1, 2];
    }
    assert KeptWhere(shown, 9) == [0, 1, 2] by {
      assert KeptWhere(shown, 7) == [0, 1, 2];
      assert KeptWhere(shown, 8) == [0, 1, 2];
    }
    assert KeptWhere(shown, 12) == [0, 1, 2, 10] by {
      assert KeptWhere(shown, 10) == [0, 1, 2];
      assert KeptWhere(shown, 11) == [0, 1, 2, 10];
    }
    assert KeptWhere(shown, 13) == [0, 1, 2, 10];
  }

  lemma OnlyDayTen(t: Task, today: Instant, k: nat)
    requires t.isActive && t.nextDue == AddDays(today, 10)
    ensures |TasksForDay([t], today, k)| > 0 <==> k == 10
  {
    assert [t][..0] == [];
    assert Filter([t], DueOnDay(today, k)) == if DueOn(today, k, t) then [t] else [];
  }

  /** Some bucket holds a task exactly when some active task falls due
      within the fourteen days; otherwise the screen shows its empty state. */
  lemma AnyTasksIff(tasks: seq<Task>, today: Instant)
    ensures (exists j :: 0 <= j < |UpcomingDays(tasks, today)| && |UpcomingDays(tasks, today)[j].tasks| > 0)
      <==> exists t, k: nat :: t in tasks && k < Horizon && DueOn(today, k, t)
  {
    var r := UpcomingDays(tasks, today);
    if exists t, k: nat :: t in tasks && k < Horizon && DueOn(today, k, t) {
      var t, k: nat :| t in tasks && k < Horizon && DueOn(today, k, t);
      TasksForDayIff(tasks, today, k, t);
      KeptIff(ShownIn(tasks, today), Horizon, k);
      var j :| 0 <= j < |KeptDays(tasks, today)| && KeptDays(tasks, today)[j] == k;
      var k' := BucketDay(tasks, today, j);
      assert t in r[j].tasks;
    }
    if exists j :: 0 <= j < |r| && |r[j].tasks| > 0 {
      var j :| 0 <= j < |r| && |r[j].tasks| > 0;
      var k := BucketDay(tasks, today, j);
      var t := r[j].tasks[0];
      TasksForDayIff(tasks, today, k, t);
    }
  }
}
