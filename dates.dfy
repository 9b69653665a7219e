/** Due-date predicates and the recurrence rule of `src/utils/dates.ts`. The
    clock is the explicit `now` argument. */
module Dates {
  import opened Seqs
  import opened Types

  /** `isOverdue`: the due instant is strictly before now. */
  predicate IsOverdue(due: Instant, now: Instant)
  {
    due < now
  }

  /** `isDueSoon`: strictly after now and strictly before now plus `days` days. */
  predicate IsDueSoon(due: Instant, now: Instant, days: int := 7)
  {
    now < due && due < AddDays(now, days)
  }

  /** Integer division truncating toward zero, as `differenceInDays` rounds. */
  function TruncDiv(a: int, b: int): (q: int)
    requires b > 0
    ensures a >= 0 ==> q >= 0 && q * b <= a < (q + 1) * b
    ensures a < 0 ==> q <= 0 && (q - 1) * b < a <= q * b
  {
    if a >= 0 then DivBounds(a, b); a / b else DivBounds(-a, b); -((-a) / b)
  }

  /** Euclidean division of a non-negative number brackets it between two
      consecutive multiples. */
  lemma DivBounds(a: nat, b: int)
    requires b > 0
    ensures a / b >= 0 && (a / b) * b <= a < (a / b + 1) * b
  {
    var q := a / b;
    assert a == q * b + a % b;
    assert (q + 1) * b == q * b + b;
  }

  /** `getDaysUntilDue`: whole days from now until the due instant, rounded
      toward zero, so partial days never count. */
  function DaysUntilDue(due: Instant, now: Instant): (r: int)
    ensures due >= now ==> r >= 0 && r * DAY <= due - now < (r + 1) * DAY
    ensures due < now ==> r <= 0 && (r - 1) * DAY < due - now <= r * DAY
  {
    TruncDiv(due - now, DAY)
  }

  /** `getNextDueDate`: with no previous completion, or a one-time task
      (interval 0), the task is due now; otherwise one interval after the last
      completion. */
  function NextDueDate(lastCompleted: Option<Instant>, intervalDays: int, now: Instant): (r: Instant)
    ensures lastCompleted.None? ==> r == now
    ensures intervalDays == 0 ==> r == now
    ensures lastCompleted.Some? && intervalDays > 0 ==> r > lastCompleted.value
    ensures lastCompleted.Some? && intervalDays < 0 ==> r < lastCompleted.value
    ensures lastCompleted.Some? && intervalDays != 0 ==> r - lastCompleted.value == intervalDays * DAY
  {
    if lastCompleted.None? || intervalDays == 0 then now
    else AddDays(lastCompleted.value, intervalDays)
  }

  /** A task is never both overdue and due soon, whatever the window. */
  lemma OverdueExcludesDueSoon(due: Instant, now: Instant, days: int)
    ensures !(IsOverdue(due, now) && IsDueSoon(due, now, days))
  {
  }

  /** Due exactly now: neither overdue nor due soon. */
  lemma DueNowIsNeither(now: Instant, days: int)
    ensures !IsOverdue(now, now) && !IsDueSoon(now, now, days)
  {
  }

  /** Widening the window never drops a due-soon task. */
  lemma DueSoonMonotone(due: Instant, now: Instant, w: int, w': int)
    requires w <= w'
    requires IsDueSoon(due, now, w)
    ensures IsDueSoon(due, now, w')
  {
  }

  /** A negative day count is shown only for overdue tasks, and every task at
      least a whole day late shows one. */
  lemma NegativeDaysMeansOverdue(due: Instant, now: Instant)
    ensures DaysUntilDue(due, now) < 0 ==> IsOverdue(due, now)
    ensures due <= now - DAY ==> DaysUntilDue(due, now) < 0
  {
  }

  /** A due-soon task within the default week shows 0 to 6 days. */
  lemma DueSoonDays(due: Instant, now: Instant)
    requires IsDueSoon(due, now)
    ensures 0 <= DaysUntilDue(due, now) <= 6
  {
  }
}
