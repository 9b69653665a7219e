/** The warranty tracker (`src/screens/warranty/WarrantyTrackerScreen.tsx`):
    items with a warranty expiry, soonest first, the expired / expiring /
    active counts, the status colour and text, and the item's age. The whole
    months between two dates are calendar arithmetic and are passed in. */
module Warranty {
  import opened Seqs
  import opened Text
  import opened Types
  import opened Dates
  import opened Sorting

  datatype Tracked = Tracked(item: Item, daysUntilExpiry: int, isExpired: bool)

  predicate HasWarranty(item: Item)
  {
    item.warrantyExpiry.Some?
  }

  /** The record for an item with an expiry date. */
  function Track(item: Item, now: Instant): (r: Tracked)
    requires item.warrantyExpiry.Some?
    ensures r.item == item
    ensures r.isExpired <==> r.daysUntilExpiry < 0
    ensures r.daysUntilExpiry == DaysUntilDue(item.warrantyExpiry.value, now)
    ensures r.isExpired <==> item.warrantyExpiry.value + DAY <= now
  {
    var days := DaysUntilDue(item.warrantyExpiry.value, now);
    Tracked(item, days, days < 0)
  }

  function TrackAll(items: seq<Item>, now: Instant): (r: seq<Tracked>)
    requires forall i :: 0 <= i < |items| ==> items[i].warrantyExpiry.Some?
    ensures |r| == |items|
    ensures forall i :: 0 <= i < |items| ==> r[i] == Track(items[i], now)
  {
    seq(|items|, i requires 0 <= i < |items| => Track(items[i], now))
  }

  function ExpiryKey(t: Tracked): int
  {
    t.daysUntilExpiry
  }

  /** `itemsWithWarranty`. */
  function ItemsWithWarranty(items: seq<Item>, now: Instant): seq<Tracked>
  {
    SortBy(TrackAll(Filter(items, HasWarranty), now), ExpiryKey)
  }

  /** Exactly the items with an expiry are listed, once per occurrence, and
      the soonest expiry comes first. */
  lemma ItemsWithWarrantyFacts(items: seq<Item>, now: Instant)
    ensures var r := ItemsWithWarranty(items, now);
      && |r| == |Filter(items, HasWarranty)|
      && (forall i :: 0 <= i < |r| ==> r[i].item in items && r[i].item.warrantyExpiry.Some?)
      && (forall i :: 0 <= i < |items| && items[i].warrantyExpiry.Some? ==> Track(items[i], now) in r)
      && (forall i, j :: 0 <= i < j < |r| ==> r[i].daysUntilExpiry <= r[j].daysUntilExpiry)
  {
    var kept := Filter(items, HasWarranty);
    var tracked := TrackAll(kept, now);
    var r := ItemsWithWarranty(items, now);
    assert SortedBy(r, ExpiryKey);
    forall i | 0 <= i < |r|
      ensures r[i].item in items && r[i].item.warrantyExpiry.Some?
    {
      assert r[i] in multiset(tracked);
      var k :| 0 <= k < |tracked| && tracked[k] == r[i];
    }
    forall i | 0 <= i < |items| && items[i].warrantyExpiry.Some?
      ensures Track(items[i], now) in r
    {
      assert items[i] in kept;
      var k :| 0 <= k < |kept| && kept[k] == items[i];
      assert tracked[k] == Track(items[i], now);
      assert tracked[k] in multiset(r);
    }
  }

  predicate Expired(t: Tracked)
  {
    t.isExpired
  }

  /** Not expired and at most thirty days left. */
  predicate ExpiringSoon(t: Tracked)
  {
    !t.isExpired && t.daysUntilExpiry <= 30
  }

  predicate StillActive(t: Tracked)
  {
    !t.isExpired && t.daysUntilExpiry > 30
  }

  datatype Summary = Summary(expired: nat, expiringSoon: nat, active: int)

  /** The three summary counts; 'active' is what the other two leave. */
  function Counts(list: seq<Tracked>): Summary
  {
    var expired := |Filter(list, Expired)|;
    var soon := |Filter(list, ExpiringSoon)|;
    Summary(expired, soon, |list| - expired - soon)
  }

  /** The counts partition the list: 'active' counts exactly the warranties
      with more than thirty days left, so it is never negative. */
  lemma CountsPartition(list: seq<Tracked>)
    ensures Counts(list).active == |Filter(list, StillActive)| >= 0
    ensures Counts(list).expired + Counts(list).expiringSoon + Counts(list).active == |list|
  {
    FilterPartition(list, Expired, ExpiringSoon, StillActive);
  }

  datatype Tone = Danger | Warning | Primary | Secondary

  /** `getWarrantyStatusColor`. */
  function StatusTone(t: Tracked): (r: Tone)
    ensures r == Danger <==> t.isExpired
    ensures r == Warning <==> !t.isExpired && t.daysUntilExpiry <= 30
    ensures r == Primary <==> !t.isExpired && 30 < t.daysUntilExpiry <= 90
    ensures r == Secondary <==> !t.isExpired && t.daysUntilExpiry > 90
  {
    if t.isExpired then Danger
    else if t.daysUntilExpiry <= 30 then Warning
    else if t.daysUntilExpiry <= 90 then Primary
    else Secondary
  }

  /** `getWarrantyStatusText` for a tracked item, whose flag says whether
      the day count is negative. */
  function StatusText(t: Tracked): string
  {
    if t.isExpired then "Expired"
    else if t.daysUntilExpiry == 0 then "Expires today!"
    else if t.daysUntilExpiry == 1 then "Expires tomorrow"
    else if t.daysUntilExpiry <= 30 then "Expires in " + IntText(t.daysUntilExpiry) + " days"
    else IntText(t.daysUntilExpiry / 30) + " months left"
  }

  /** Past thirty days the text counts whole thirty-day months left, at
      least one, and never more than the days allow. */
  lemma MonthsLeftText(t: Tracked)
    requires !t.isExpired && t.daysUntilExpiry > 30
    ensures exists m: nat :: (StatusText(t) == NatToString(m) + " months left"
      && 1 <= m && m * 30 <= t.daysUntilExpiry < (m + 1) * 30)
  {
    var m := t.daysUntilExpiry / 30;
    assert StatusText(t) == NatToString(m) + " months left";
  }

  /** The text says 'Expired' exactly for an expired warranty and names the
      days when at most thirty are left. */
  lemma StatusTextCases(t: Tracked)
    requires t.isExpired <==> t.daysUntilExpiry < 0
    ensures StatusText(t) == "Expired" <==> t.isExpired
    ensures 2 <= t.daysUntilExpiry <= 30 ==> StatusText(t) == "Expires in " + NatToString(t.daysUntilExpiry) + " days"
  {
    if !t.isExpired {
      var s := StatusText(t);
      assert s[1] != "Expired"[1] || |s| != |"Expired"|;
    }
  }

  /** The age of an item, as the screen words it. */
  datatype Age = DaysOld(days: int) | MonthsOld(months: int) | YearsOld(years: int) | YearsMonthsOld(years: int, months: int)

  /** `getItemAge` from the whole months and whole days since purchase;
      none without a purchase date. */
  function AgeOf(purchaseDate: Option<Instant>, months: int, days: int): (r: Option<Age>)
    ensures r.None? <==> purchaseDate.None?
    ensures r.Some? && months < 1 ==> r.value == DaysOld(days)
    ensures r.Some? && 1 <= months < 12 ==> r.value == MonthsOld(months)
    ensures r.Some? && months >= 12 ==> TotalMonths(r.value) == months
  {
    if purchaseDate.None? then None
    else if months < 1 then Some(DaysOld(days))
    else if months < 12 then Some(MonthsOld(months))
    else
      var years := months / 12;
      var remaining := months % 12;
      if remaining == 0 then Some(YearsOld(years)) else Some(YearsMonthsOld(years, remaining))
  }

  /** The months an age in months or years stands for. */
  function TotalMonths(a: Age): int
  {
    match a
    case DaysOld(_) => 0
    case MonthsOld(m) => m
    case YearsOld(y) => y * 12
    case YearsMonthsOld(y, m) => y * 12 + m
  }

  /** An age of a year or more splits the months into whole years and a
      remainder of 1 to 11 months, or whole years alone. */
  lemma AgeSplit(purchaseDate: Option<Instant>, months: int, days: int)
    requires purchaseDate.Some? && months >= 12
    ensures match AgeOf(purchaseDate, months, days).value
      case YearsOld(y) => y >= 1 && y * 12 == months
      case YearsMonthsOld(y, m) => y >= 1 && 1 <= m <= 11 && y * 12 + m == months
      case _ => false
  {
  }

  /** `${n} days old` with the sign JavaScript prints for a negative count. */
  function IntText(n: int): string
  {
    if n < 0 then "-" + NatToString(-n) else NatToString(n)
  }

  /** The age's text: singular for one month or one year. */
  function AgeText(a: Age): string
  {
    match a
    case DaysOld(d) => IntText(d) + " days old"
    case MonthsOld(m) => IntText(m) + " month" + (if m > 1 then "s" else "") + " old"
    case YearsOld(y) => IntText(y) + " year" + (if y > 1 then "s" else "") + " old"
    case YearsMonthsOld(y, m) => IntText(y) + "y " + IntText(m) + "m old"
  }

  /** One month and one year are worded in the singular, more than one in
      the plural. */
  lemma SingularMonth()
    ensures AgeText(MonthsOld(1)) == "1 month old"
  {
    OneDigit(1);
  }

  lemma SingularYear()
    ensures AgeText(YearsOld(1)) == "1 year old"
  {
    OneDigit(1);
  }

  lemma PluralMonths(m: int)
    requires m > 1
    ensures AgeText(MonthsOld(m)) == IntText(m) + " months old"
  {
  }

  /** Ten and eleven months are two-digit counts, worded in the plural too. */
  lemma ElevenMonthsPlural()
    ensures AgeText(MonthsOld(11)) == "11 months old"
  {
    assert NatToString(1) == "1";
    assert NatToString(11) == NatToString(1) + "1";
  }

  lemma OneDigit(n: nat)
    requires n < 10
    ensures IntText(n) == [['0', '1', '2', '3', '4', '5', '6', '7', '8', '9'][n]]
  {
  }
}
