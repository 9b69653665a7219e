/** The search across items, tasks and history of
    `src/components/GlobalSearchModal.tsx`: a query of two or more
    characters is lower-cased and matched as a substring against the listed
    fields; item hits come first, then task hits, then log hits, each in
    collection order, and at most twenty are kept. Dates in subtitles are
    formatted by functions given as parameters; the tap actions are left
    out. */
module GlobalSearch {
  import opened Seqs
  import opened Text
  import opened Types

  datatype Kind = ItemHit | TaskHit | LogHit

  datatype SearchResult = SearchResult(kind: Kind, id: string, title: string, subtitle: string, icon: string)

  const MaxResults: nat := 20

  /** `ITEM_ICONS[item.type] || 'ellipse'`. */
  function ItemIcon(t: ItemType): (r: string)
    ensures t == Car ==> r == "car"
    ensures t == Home ==> r == "home"
    ensures t == Appliance ==> r == "cube"
    ensures t == Other ==> r == "ellipse"
  {
    match t
    case Car => "car"
    case Home => "home"
    case Appliance => "cube"
    case Other => "ellipse"
  }

  /** `o?.toLowerCase().includes(q)`: false for an absent field. */
  predicate OptContains(o: Option<string>, q: string)
  {
    o.Some? && Contains(LowerStr(o.value), q)
  }

  /** `o || fallback` on an optional text: absent and empty both fall back. */
  function OrElse(o: Option<string>, fallback: string): (r: string)
    ensures o.Some? && o.value != "" ==> r == o.value
    ensures (o.None? || o.value == "") ==> r == fallback
  {
    if o.Some? && o.value != "" then o.value else fallback
  }

  predicate ItemMatches(item: Item, q: string)
  {
    Contains(LowerStr(item.name), q) || OptContains(item.brand, q) || OptContains(item.model, q)
  }

  predicate TaskMatches(task: Task, q: string)
  {
    Contains(LowerStr(task.name), q) || OptContains(task.description, q)
  }

  /** A log matches on its notes, its provider or the name of its task. */
  predicate LogMatches(tasks: seq<Task>, log: Log, q: string)
  {
    || OptContains(log.notes, q)
    || OptContains(log.provider, q)
    || (FindTask(tasks, log.taskId).Some? && Contains(LowerStr(FindTask(tasks, log.taskId).value.name), q))
  }

  /** Brand and model joined by a space and trimmed, or the item's type when
      that leaves nothing. */
  function ItemSubtitle(item: Item): (r: string)
    ensures r != ""
  {
    var joined := Trim(OrElse(item.brand, "") + " " + OrElse(item.model, ""));
    if joined == "" then TypeName(item.kind) else joined
  }

  function ItemResult(item: Item): SearchResult
  {
    SearchResult(ItemHit, item.id, item.name, ItemSubtitle(item), ItemIcon(item.kind))
  }

  /** The task's item name ('Unknown' without one) and its due day. */
  function TaskResult(items: seq<Item>, task: Task, dueDay: Instant -> string): SearchResult
  {
    var item := FindItem(items, task.itemId);
    var itemName := if item.Some? then OrElse(Some(item.value.name), "Unknown") else "Unknown";
    SearchResult(TaskHit, task.id, task.name, itemName + " • Due " + dueDay(task.nextDue), "checkbox")
  }

  /** Titled by the log's task name, or 'Maintenance' without one. */
  function LogResult(items: seq<Item>, tasks: seq<Task>, log: Log, completedDay: Instant -> string): SearchResult
  {
    var task := FindTask(tasks, log.taskId);
    var item := FindItem(items, log.itemId);
    var title := if task.Some? then OrElse(Some(task.value.name), "Maintenance") else "Maintenance";
    var itemName := if item.Some? then item.value.name else "";
    SearchResult(LogHit, log.id, title, itemName + " • " + completedDay(log.completedAt), "checkmark-circle")
  }

  function ItemMatcher(q: string): Item -> bool
  {
    (item: Item) => ItemMatches(item, q)
  }

  function TaskMatcher(q: string): Task -> bool
  {
    (task: Task) => TaskMatches(task, q)
  }

  function LogMatcher(tasks: seq<Task>, q: string): Log -> bool
  {
    (log: Log) => LogMatches(tasks, log, q)
  }

  function ItemResults(items: seq<Item>): Item -> SearchResult
  {
    (item: Item) => ItemResult(item)
  }

  function TaskResults(items: seq<Item>, dueDay: Instant -> string): Task -> SearchResult
  {
    (task: Task) => TaskResult(items, task, dueDay)
  }

  function LogResults(items: seq<Item>, tasks: seq<Task>, completedDay: Instant -> string): Log -> SearchResult
  {
    (log: Log) => LogResult(items, tasks, log, completedDay)
  }

  /** The results one `forEach` pushes: for each element that matches, in
      order, its result. Defined from the back, as the loop extends it. */
  function Hits<T>(s: seq<T>, matches: T -> bool, result: T -> SearchResult): (r: seq<SearchResult>)
    ensures |r| <= |s|
  {
    if s == [] then []
    else
      var last := s[|s| - 1];
      Hits(s[..|s| - 1], matches, result) + (if matches(last) then [result(last)] else [])
  }

  /** One more element extends the hits by its result when it matches. */
  lemma HitsSnoc<T>(s: seq<T>, i: nat, matches: T -> bool, result: T -> SearchResult)
    requires i < |s|
    ensures Hits(s[..i + 1], matches, result)
      == Hits(s[..i], matches, result) + (if matches(s[i]) then [result(s[i])] else [])
  {
    assert s[..i + 1][..i] == s[..i];
  }

  /** The pushed results are exactly the matching elements' results, once
      each and in collection order. */
  lemma {:induction false} HitsAreMatches<T>(s: seq<T>, matches: T -> bool, result: T -> SearchResult)
    ensures Hits(s, matches, result) == Map(Filter(s, matches), result)
    decreases |s|
  {
    if s != [] {
      var front := s[..|s| - 1];
      var last := s[|s| - 1];
      HitsAreMatches(front, matches, result);
      var mf := Map(Filter(front, matches), result);
      if matches(last) {
        assert Filter(s, matches) == Filter(front, matches) + [last];
        assert Map(Filter(s, matches), result) == mf + [result(last)];
      } else {
        assert Filter(s, matches) == Filter(front, matches);
      }
    }
  }

  /** Every result pushed by one loop is of that loop's kind. */
  lemma {:induction false} HitsKind<T>(s: seq<T>, matches: T -> bool, result: T -> SearchResult, k: Kind)
    requires forall x :: result(x).kind == k
    ensures forall i :: 0 <= i < |Hits(s, matches, result)| ==> Hits(s, matches, result)[i].kind == k
    decreases |s|
  {
    if s != [] {
      HitsKind(s[..|s| - 1], matches, result, k);
    }
  }

  /** All hits before truncation: items, then tasks, then logs. */
  function AllHits(items: seq<Item>, tasks: seq<Task>, logs: seq<Log>, q: string,
                   dueDay: Instant -> string, completedDay: Instant -> string): seq<SearchResult>
  {
    Hits(items, ItemMatcher(q), ItemResults(items))
    + Hits(tasks, TaskMatcher(q), TaskResults(items, dueDay))
    + Hits(logs, LogMatcher(tasks, q), LogResults(items, tasks, completedDay))
  }

  /** `results` for the typed query. */
  function Results(items: seq<Item>, tasks: seq<Task>, logs: seq<Log>, query: string,
                   dueDay: Instant -> string, completedDay: Instant -> string): seq<SearchResult>
  {
    if Utf16Length(query) < 2 then []
    else Take(AllHits(items, tasks, logs, LowerStr(query), dueDay, completedDay), MaxResults)
  }

  /** One `forEach` over the items: pushes the result of each match. */
  method PushItemHits(found: seq<SearchResult>, items: seq<Item>, q: string) returns (r: seq<SearchResult>)
    ensures r == found + Hits(items, ItemMatcher(q), ItemResults(items))
  {
    var matches := ItemMatcher(q);
    var result := ItemResults(items);
    r := found;
    var i := 0;
    while i < |items|
      invariant 0 <= i <= |items|
      invariant r == found + Hits(items[..i], matches, result)
    {
      HitsSnoc(items, i, matches, result);
      if matches(items[i]) {
        r := r + [result(items[i])];
      }
      i := i + 1;
    }
    assert items[..|items|] == items;
  }

  /** The `forEach` over the tasks. */
  method PushTaskHits(found: seq<SearchResult>, items: seq<Item>, tasks: seq<Task>, q: string,
                      dueDay: Instant -> string) returns (r: seq<SearchResult>)
    ensures r == found + Hits(tasks, TaskMatcher(q), TaskResults(items, dueDay))
  {
    var matches := TaskMatcher(q);
    var result := TaskResults(items, dueDay);
    r := found;
    var i := 0;
    while i < |tasks|
      invariant 0 <= i <= |tasks|
      invariant r == found + Hits(tasks[..i], matches, result)
    {
      HitsSnoc(tasks, i, matches, result);
      if matches(tasks[i]) {
        r := r + [result(tasks[i])];
      }
      i := i + 1;
    }
    assert tasks[..|tasks|] == tasks;
  }

  /** The `forEach` over the logs. */
  method PushLogHits(found: seq<SearchResult>, items: seq<Item>, tasks: seq<Task>, logs: seq<Log>, q: string,
                     completedDay: Instant -> string) returns (r: seq<SearchResult>)
    ensures r == found + Hits(logs, LogMatcher(tasks, q), LogResults(items, tasks, completedDay))
  {
    var matches := LogMatcher(tasks, q);
    var result := LogResults(items, tasks, completedDay);
    r := found;
    var i := 0;
    while i < |logs|
      invariant 0 <= i <= |logs|
      invariant r == found + Hits(logs[..i], matches, result)
    {
      HitsSnoc(logs, i, matches, result);
      if matches(logs[i]) {
        r := r + [result(logs[i])];
      }
      i := i + 1;
    }
    assert logs[..|logs|] == logs;
  }

  /** The memoised computation: three loops push into one list, which is
      then cut to twenty. */
  method Search(items: seq<Item>, tasks: seq<Task>, logs: seq<Log>, query: string,
                dueDay: Instant -> string, completedDay: Instant -> string) returns (r: seq<SearchResult>)
    ensures r == Results(items, tasks, logs, query, dueDay, completedDay)
    ensures Utf16Length(query) < 2 ==> r == []
    ensures |r| <= MaxResults
  {
    if Utf16Length(query) < 2 {
      return [];
    }
    var q := LowerStr(query);
    var found := PushItemHits([], items, q);
    found := PushTaskHits(found, items, tasks, q, dueDay);
    found := PushLogHits(found, items, tasks, logs, q, completedDay);
    assert [] + Hits(items, ItemMatcher(q), ItemResults(items)) == Hits(items, ItemMatcher(q), ItemResults(items));
    r := Take(found, MaxResults);
  }

  /** A single emoji is two UTF-16 code units, so it is long enough to
      start a search. */
  lemma EmojiQuerySearches()
    ensures Utf16Length("\U{1F600}") == 2
  {
    AstralRunLength('\U{1F600}', 1);
    assert "\U{1F600}" == seq(1, _ => '\U{1F600}');
  }

  function KindRank(k: Kind): int
  {
    match k
    case ItemHit => 0
    case TaskHit => 1
    case LogHit => 2
  }

  /** The results are grouped by kind, items before tasks before logs; the
      cut at twenty keeps item hits first, so an item hit is dropped only when
      twenty item hits are already listed. */
  lemma ResultsOrdered(items: seq<Item>, tasks: seq<Task>, logs: seq<Log>, query: string,
                       dueDay: Instant -> string, completedDay: Instant -> string)
    ensures var r := Results(items, tasks, logs, query, dueDay, completedDay);
      forall i, j :: 0 <= i < j < |r| ==> KindRank(r[i].kind) <= KindRank(r[j].kind)
    ensures var r := Results(items, tasks, logs, query, dueDay, completedDay);
      Utf16Length(query) >= 2 ==>
        |Filter(r, IsItemHit)| == if |Hits(items, ItemMatcher(LowerStr(query)), ItemResults(items))| < MaxResults
                                  then |Hits(items, ItemMatcher(LowerStr(query)), ItemResults(items))| else MaxResults
  {
    if Utf16Length(query) >= 2 {
      var q := LowerStr(query);
      var ih := Hits(items, ItemMatcher(q), ItemResults(items));
      var th := Hits(tasks, TaskMatcher(q), TaskResults(items, dueDay));
      var lh := Hits(logs, LogMatcher(tasks, q), LogResults(items, tasks, completedDay));
      HitsKind(items, ItemMatcher(q), ItemResults(items), ItemHit);
      HitsKind(tasks, TaskMatcher(q), TaskResults(items, dueDay), TaskHit);
      HitsKind(logs, LogMatcher(tasks, q), LogResults(items, tasks, completedDay), LogHit);
      GroupedTakeOrdered(ih, th, lh, MaxResults);
      assert ih + th + lh == ih + (th + lh);
      GroupedTakeItems(ih, th + lh, MaxResults);
    }
  }

  /** Three runs of one kind each, cut to `n`, stay ordered by kind. */
  lemma GroupedTakeOrdered(ih: seq<SearchResult>, th: seq<SearchResult>, lh: seq<SearchResult>, n: nat)
    requires forall i :: 0 <= i < |ih| ==> ih[i].kind == ItemHit
    requires forall i :: 0 <= i < |th| ==> th[i].kind == TaskHit
    requires forall i :: 0 <= i < |lh| ==> lh[i].kind == LogHit
    ensures var r := Take(ih + th + lh, n);
      forall i, j :: 0 <= i < j < |r| ==> KindRank(r[i].kind) <= KindRank(r[j].kind)
  {
    var all := ih + th + lh;
    var r := Take(all, n);
    forall i | 0 <= i < |r|
      ensures KindRank(r[i].kind) == (if i < |ih| then 0 else if i < |ih| + |th| then 1 else 2)
    {
      assert r[i] == all[i];
      if i < |ih| {
        assert all[i] == ih[i];
      } else if i < |ih| + |th| {
        assert all[i] == th[i - |ih|];
      } else {
        assert all[i] == lh[i - |ih| - |th|];
      }
    }
  }

  /** Cut to `n`, the item run keeps `min(|ih|, n)` entries. */
  lemma GroupedTakeItems(ih: seq<SearchResult>, rest: seq<SearchResult>, n: nat)
    requires forall i :: 0 <= i < |ih| ==> ih[i].kind == ItemHit
    requires forall i :: 0 <= i < |rest| ==> rest[i].kind != ItemHit
    ensures |Filter(Take(ih + rest, n), IsItemHit)| == if |ih| < n then |ih| else n
  {
    var all := ih + rest;
    var r := Take(all, n);
    var m := if |ih| < n then |ih| else n;
    var front := r[..m];
    var back := r[m..];
    assert r == front + back;
    forall i | 0 <= i < |front|
      ensures IsItemHit(front[i])
    {
      assert front[i] == all[i] == ih[i];
    }
    forall i | 0 <= i < |back|
      ensures !IsItemHit(back[i])
    {
      assert back[i] == all[m + i] == rest[m + i - |ih|];
    }
    FilterConcat(front, back, IsItemHit);
    FilterAll(front, IsItemHit);
    FilterNone(back, IsItemHit);
  }

  predicate IsItemHit(r: SearchResult)
  {
    r.kind == ItemHit
  }

  /** Below the cut every matching item, task and log is listed exactly once,
      in collection order, items first. */
  lemma ResultsAreMatches(items: seq<Item>, tasks: seq<Task>, logs: seq<Log>, query: string,
                          dueDay: Instant -> string, completedDay: Instant -> string)
    requires Utf16Length(query) >= 2
    ensures var q := LowerStr(query);
      var all := Map(Filter(items, ItemMatcher(q)), ItemResults(items))
               + Map(Filter(tasks, TaskMatcher(q)), TaskResults(items, dueDay))
               + Map(Filter(logs, LogMatcher(tasks, q)), LogResults(items, tasks, completedDay));
      Results(items, tasks, logs, query, dueDay, completedDay) == Take(all, MaxResults)
  {
    var q := LowerStr(query);
    HitsAreMatches(items, ItemMatcher(q), ItemResults(items));
    HitsAreMatches(tasks, TaskMatcher(q), TaskResults(items, dueDay));
    HitsAreMatches(logs, LogMatcher(tasks, q), LogResults(items, tasks, completedDay));
  }

  /** Without brand and model the subtitle is the item's type. */
  lemma SubtitleFallsBackToType(item: Item)
    requires item.brand.None? && item.model.None?
    ensures ItemSubtitle(item) == TypeName(item.kind)
  {
    assert IsBlank(" ");
    TrimEmptyIffBlank(" ");
  }

  /** With a brand that has no surrounding whitespace and no model, the
      subtitle is the brand: the joining space is trimmed away. */
  lemma SubtitleIsBrand(item: Item)
    requires item.brand.Some? && item.brand.value != "" && item.model.None?
    requires !IsWhitespace(item.brand.value[0]) && !IsWhitespace(item.brand.value[|item.brand.value| - 1])
    ensures ItemSubtitle(item) == item.brand.value
  {
    var b := item.brand.value;
    var joined := OrElse(item.brand, "") + " " + OrElse(item.model, "");
    assert joined == b + " ";
    assert TrimStart(joined) == joined;
    assert joined[..|joined| - 1] == b;
    assert TrimEnd(joined) == TrimEnd(b) == b;
  }
}
