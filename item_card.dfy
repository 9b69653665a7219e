/** The status an item card shows (`src/components/ItemCard.tsx`): the item's
    next task, the colour of its status dot and the status text. */
module ItemCard {
  import opened Seqs
  import opened Types
  import opened Dates
  import opened Sorting
  import opened TaskCard

  function ActiveOf(itemId: string): Task -> bool
  {
    (t: Task) => t.itemId == itemId && t.isActive
  }

  function DueKey(t: Task): int
  {
    t.nextDue
  }

  /** The sorted list's first element, where the source sorts the item's
      active tasks by due date. */
  function NextTask(item: Item, tasks: seq<Task>): (r: Option<Task>)
    ensures r.None? <==> forall i :: 0 <= i < |tasks| ==> !(tasks[i].itemId == item.id && tasks[i].isActive)
    ensures r.Some? ==> r.value in tasks && r.value.itemId == item.id && r.value.isActive
    ensures r.Some? ==> forall i :: 0 <= i < |tasks| && tasks[i].itemId == item.id && tasks[i].isActive ==>
      r.value.nextDue <= tasks[i].nextDue
  {
    var own := Filter(tasks, ActiveOf(item.id));
    var sorted := SortBy(own, DueKey);
    NextTaskFacts(own, sorted);
    if |sorted| == 0 then None else Some(sorted[0])
  }

  lemma NextTaskFacts(own: seq<Task>, sorted: seq<Task>)
    requires sorted == SortBy(own, DueKey)
    ensures |sorted| == |own|
    ensures |sorted| > 0 ==> sorted[0] in own && forall t :: t in own ==> sorted[0].nextDue <= t.nextDue
  {
    if |sorted| > 0 {
      assert sorted[0] in multiset(sorted);
      forall t | t in own
        ensures sorted[0].nextDue <= t.nextDue
      {
        assert t in multiset(own);
        var k :| 0 <= k < |sorted| && sorted[k] == t;
        if k > 0 {
          assert DueKey(sorted[0]) <= DueKey(sorted[k]);
        }
      }
    }
  }

  /** Tasks of other items and inactive tasks never change the next task. */
  lemma NextTaskIgnoresOthers(item: Item, tasks: seq<Task>, other: Task)
    requires !(other.itemId == item.id && other.isActive)
    ensures NextTask(item, tasks + [other]) == NextTask(item, tasks)
  {
    FilterConcat(tasks, [other], ActiveOf(item.id));
    assert [other][..0] == [];
  }

  datatype Tone = Muted | Danger | Warning | Ok

  /** `getStatusColor`: overdue before due soon before fine. */
  function StatusTone(next: Option<Task>, now: Instant): (r: Tone)
    ensures r == Muted <==> next.None?
    ensures r == Danger <==> next.Some? && IsOverdue(next.value.nextDue, now)
    ensures r == Warning <==> next.Some? && !IsOverdue(next.value.nextDue, now) && IsDueSoon(next.value.nextDue, now)
    ensures r == Ok <==> next.Some? && !IsOverdue(next.value.nextDue, now) && !IsDueSoon(next.value.nextDue, now)
  {
    if next.None? then Muted
    else if IsOverdue(next.value.nextDue, now) then Danger
    else if IsDueSoon(next.value.nextDue, now) then Warning
    else Ok
  }

  /** `getStatusText`. */
  function StatusText(next: Option<Task>, now: Instant): (r: string)
    ensures r == "No tasks" <==> next.None?
    ensures next.Some? ==> r == DueText(DaysUntilDue(next.value.nextDue, now))
  {
    if next.None? then "No tasks" else DueText(DaysUntilDue(next.value.nextDue, now))
  }

  /** The card says 'No tasks' exactly when the item has no active task. */
  lemma NoTasksIff(item: Item, tasks: seq<Task>, now: Instant)
    ensures StatusText(NextTask(item, tasks), now) == "No tasks" <==>
      forall i :: 0 <= i < |tasks| ==> !(tasks[i].itemId == item.id && tasks[i].isActive)
  {
  }
}
