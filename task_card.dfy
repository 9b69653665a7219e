/** What a task card shows (`src/components/TaskCard.tsx`): the due text, the
    overdue styling and whether the complete control is there. The due text is
    shared with the item card. */
module TaskCard {
  import opened Seqs
  import opened Text
  import opened Types
  import opened Dates

  const OverdueSuffix: string := " days overdue"

  /** `getDueText` for a whole number of days until the due date. */
  function DueText(days: int): (r: string)
    ensures |r| > 0 && (r[0] == 'D' || '0' <= r[0] <= '9')
    ensures days < 0 <==> '0' <= r[0] <= '9'
  {
    if days < 0 then NatToString(-days) + OverdueSuffix
    else if days == 0 then "Due today"
    else if days == 1 then "Due tomorrow"
    else "Due in " + NatToString(days) + " days"
  }

  /** Two decimal numerals with the same value are the same text. */
  lemma {:induction false} NumeralsEqual(a: nat, b: nat)
    requires NatToString(a) == NatToString(b)
    ensures a == b
  {
    assert DigitsValue(NatToString(a)) == a;
  }

  /** Different day counts never show the same text, so the text tells the
      number of days: overdue texts carry the absolute value, and 0, 1 and
      larger counts each have their own form. */
  lemma DueTextInjective(a: int, b: int)
    requires DueText(a) == DueText(b)
    ensures a == b
  {
    SignsAgree(a, b);
    if a < 0 {
      OverdueTextsAgree(a, b);
    } else if a >= 2 && b >= 2 {
      SameSuffixNumerals("Due in ", a, b, " days");
    } else if a != b {
      DueFormsDiffer(a, b);
    }
  }

  /** Equal texts are both overdue texts or both not. */
  lemma SignsAgree(a: int, b: int)
    requires DueText(a) == DueText(b)
    ensures a < 0 <==> b < 0
  {
    assert DueText(a)[0] == DueText(b)[0];
  }

  /** Equal overdue texts count the same days. */
  lemma OverdueTextsAgree(a: int, b: int)
    requires a < 0 && b < 0 && DueText(a) == DueText(b)
    ensures a == b
  {
    var na := NatToString(-a);
    var nb := NatToString(-b);
    var t := DueText(a);
    assert t == na + OverdueSuffix && t == nb + OverdueSuffix;
    assert na == t[..|na|] && nb == t[..|nb|];
    NumeralsEqual(-a, -b);
  }

  /** A numeral between a fixed prefix and a fixed suffix is read back
      unambiguously. */
  lemma SameSuffixNumerals(prefix: string, a: nat, b: nat, suffix: string)
    requires prefix + NatToString(a) + suffix == prefix + NatToString(b) + suffix
    ensures a == b
  {
    var t := prefix + NatToString(a) + suffix;
    var na := NatToString(a);
    var nb := NatToString(b);
    assert |na| == |nb|;
    assert na == t[|prefix|..|prefix| + |na|];
    assert nb == (prefix + NatToString(b) + suffix)[|prefix|..|prefix| + |nb|];
    NumeralsEqual(a, b);
  }

  /** The three fixed forms and the 'Due in' form differ from each other. */
  lemma DueFormsDiffer(a: int, b: int)
    requires 0 <= a && 0 <= b && (a < 2 || b < 2) && a != b
    ensures DueText(a) != DueText(b)
  {
    var ta := DueText(a);
    var tb := DueText(b);
    if a == 0 && b == 1 {
      assert ta[4] != tb[5];
      assert |ta| != |tb|;
    } else if a == 1 && b == 0 {
      assert |ta| != |tb|;
    } else if a < 2 {
      assert tb[4] == 'i';
      assert ta[4] == 't';
    } else {
      assert ta[4] == 'i';
      assert tb[4] == 't';
    }
  }

  /** Less than a day late the card is styled overdue yet reads 'Due today',
      since whole days are counted toward zero. */
  lemma OverdueYetDueToday(due: Instant, now: Instant)
    requires now - DAY < due < now
    ensures IsOverdue(due, now) && DueText(DaysUntilDue(due, now)) == "Due today"
  {
  }

  /** A text with a day count in front is only ever shown for overdue tasks. */
  lemma OverdueTextMeansOverdue(due: Instant, now: Instant)
    requires '0' <= DueText(DaysUntilDue(due, now))[0] <= '9'
    ensures IsOverdue(due, now)
  {
    NegativeDaysMeansOverdue(due, now);
  }

  datatype CardView = CardView(name: string, itemName: Option<string>, overdueStyle: bool, icon: string,
                               dueText: string, showComplete: bool)

  /** The card for a task, its item if one was passed, and whether an
      `onComplete` handler was supplied. */
  function TaskCardView(task: Task, item: Option<Item>, hasOnComplete: bool, now: Instant): (r: CardView)
    ensures r.overdueStyle <==> IsOverdue(task.nextDue, now)
    ensures r.icon == (if IsOverdue(task.nextDue, now) then "alert-circle" else "calendar-outline")
    ensures r.showComplete <==> hasOnComplete
    ensures r.name == task.name
    ensures r.itemName.Some? <==> item.Some?
    ensures item.Some? ==> r.itemName == Some(item.value.name)
    ensures r.dueText == DueText(DaysUntilDue(task.nextDue, now))
  {
    var overdue := IsOverdue(task.nextDue, now);
    CardView(task.name, if item.Some? then Some(item.value.name) else None, overdue,
             if overdue then "alert-circle" else "calendar-outline",
             DueText(DaysUntilDue(task.nextDue, now)), hasOnComplete)
  }
}
