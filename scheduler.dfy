/** The device's local-notification scheduler, reduced to the records it
    keeps: each scheduled notification has an identifier the scheduler hands
    out and a payload naming what it is about and when it fires. */
module Scheduler {
  import opened Seqs
  import opened Types

  /** `task_reminder` and `warranty_reminder` are the advanced service's
      payload types; the basic service sends no type. */
  datatype Kind = TaskReminderKind | WarrantyReminderKind | Untyped

  datatype Payload = Payload(kind: Kind, taskId: Option<string>, itemId: string, fireAt: Instant)

  datatype Entry = Entry(id: nat, payload: Payload)

  function PayloadsOf(entries: seq<Entry>): (r: seq<Payload>)
    ensures |r| == |entries|
    ensures forall i :: 0 <= i < |entries| ==> r[i] == entries[i].payload
  {
    Map(entries, (e: Entry) => e.payload)
  }

  /** The entries left after cancelling identifier `id`. */
  function WithoutId(entries: seq<Entry>, id: nat): seq<Entry>
  {
    Filter(entries, (e: Entry) => e.id != id)
  }

  /** Identifiers increase along the list, so no two entries share one. */
  ghost predicate Increasing(entries: seq<Entry>)
  {
    forall i, j :: 0 <= i < j < |entries| ==> entries[i].id < entries[j].id
  }

  class NotificationScheduler {
    var entries: seq<Entry>
    var nextId: nat

    ghost predicate Valid()
      reads this
    {
      Increasing(entries) && forall i :: 0 <= i < |entries| ==> entries[i].id < nextId
    }

    constructor ()
      ensures Valid() && entries == []
    {
      entries := [];
      nextId := 0;
    }

    function Payloads(): seq<Payload>
      reads this
    {
      PayloadsOf(entries)
    }

    /** `scheduleNotificationAsync`: a new entry with an identifier never
        handed out before. */
    method Schedule(p: Payload) returns (id: nat)
      requires Valid()
      modifies this
      ensures Valid()
      ensures entries == old(entries) + [Entry(id, p)]
      ensures id == old(nextId) && nextId == old(nextId) + 1
      ensures forall i :: 0 <= i < |old(entries)| ==> old(entries)[i].id < id
    {
      id := nextId;
      entries := entries + [Entry(id, p)];
      nextId := nextId + 1;
    }

    /** `cancelScheduledNotificationAsync`: drops the entry with that id. */
    method Cancel(id: nat)
      requires Valid()
      modifies this
      ensures Valid()
      ensures entries == WithoutId(old(entries), id)
      ensures nextId == old(nextId)
    {
      entries := WithoutId(entries, id);
      FilterIncreasing(old(entries), (e: Entry) => e.id != id);
    }

    /** `cancelAllScheduledNotificationsAsync`. */
    method CancelAll()
      requires Valid()
      modifies this
      ensures Valid() && entries == [] && nextId == old(nextId)
    {
      entries := [];
    }
  }

  /** Filtering keeps identifiers increasing. */
  lemma {:induction false} FilterIncreasing(entries: seq<Entry>, p: Entry -> bool)
    requires Increasing(entries)
    ensures Increasing(Filter(entries, p))
    decreases |entries|
  {
    if entries != [] {
      var front := entries[..|entries| - 1];
      FilterIncreasing(front, p);
      var f := Filter(front, p);
      if p(entries[|entries| - 1]) {
        var g := f + [entries[|entries| - 1]];
        forall i, j | 0 <= i < j < |g|
          ensures g[i].id < g[j].id
        {
          if j == |f| {
            assert f[i] in front;
          }
        }
      }
    }
  }

  /** Cancelling by the id of one entry of an increasing list removes that
      entry and no other. */
  lemma {:induction false} FilterOneId(a: seq<Entry>, e: Entry, b: seq<Entry>)
    requires Increasing(a + [e] + b)
    ensures WithoutId(a + [e] + b, e.id) == a + b
  {
    var keep := (x: Entry) => x.id != e.id;
    var s := a + [e] + b;
    forall i | 0 <= i < |a| ensures keep(a[i]) { assert s[i] == a[i] && s[|a|] == e; }
    forall i | 0 <= i < |b| ensures keep(b[i]) { assert s[|a| + 1 + i] == b[i] && s[|a|] == e; }
    FilterConcat(a + [e], b, keep);
    FilterConcat(a, [e], keep);
    FilterAll(a, keep);
    FilterAll(b, keep);
    assert Filter([e], keep) == [] by {
      assert [e][..0] == [];
    }
  }
}
