/** Icon names chosen from an item's kind and from a task's name, as in
    `src/utils/mappings.ts`. */
module Mappings {
  import opened Text

  /** `getIconForItemType`: the table entry for the four kinds, "ellipse"
      for any other text. */
  function IconForItemType(t: string): (r: string)
    ensures t == "car" ==> r == "car"
    ensures t == "home" ==> r == "home"
    ensures t == "appliance" ==> r == "flash"
    ensures t !in {"car", "home", "appliance"} ==> r == "ellipse"
  {
    if t == "car" then "car"
    else if t == "home" then "home"
    else if t == "appliance" then "flash"
    else "ellipse"
  }

  /** The seven icons a task can get. */
  predicate IsTaskIcon(r: string)
  {
    r in {"water", "sync", "filter", "sparkles", "search", "refresh", "checkmark-circle"}
  }

  /** `getIconForTask`: the first keyword found in the lower-cased name wins,
      in the order oil, tire, filter, clean, inspect, replace or change. */
  function IconForTask(taskName: string): (r: string)
    ensures IsTaskIcon(r)
    ensures r == "checkmark-circle" <==>
      var n := LowerStr(taskName);
      !Contains(n, "oil") && !Contains(n, "tire") && !Contains(n, "filter") && !Contains(n, "clean")
      && !Contains(n, "inspect") && !Contains(n, "replace") && !Contains(n, "change")
    ensures var n := LowerStr(taskName);
      && (Contains(n, "oil") ==> r == "water")
      && (!Contains(n, "oil") && Contains(n, "tire") ==> r == "sync")
      && (!Contains(n, "oil") && !Contains(n, "tire") && Contains(n, "filter") ==> r == "filter")
      && (!Contains(n, "oil") && !Contains(n, "tire") && !Contains(n, "filter") && Contains(n, "clean") ==> r == "sparkles")
      && ((!Contains(n, "oil") && !Contains(n, "tire") && !Contains(n, "filter") && !Contains(n, "clean")
           && Contains(n, "inspect")) ==> r == "search")
      && ((!Contains(n, "oil") && !Contains(n, "tire") && !Contains(n, "filter") && !Contains(n, "clean")
           && !Contains(n, "inspect") && (Contains(n, "replace") || Contains(n, "change"))) ==> r == "refresh")
  {
    var n := LowerStr(taskName);
    if Contains(n, "oil") then "water"
    else if Contains(n, "tire") then "sync"
    else if Contains(n, "filter") then "filter"
    else if Contains(n, "clean") then "sparkles"
    else if Contains(n, "inspect") then "search"
    else if Contains(n, "replace") || Contains(n, "change") then "refresh"
    else "checkmark-circle"
  }

  /** Names that differ only in letter case get the same icon. */
  lemma IconForTaskCaseInsensitive(a: string, b: string)
    requires LowerStr(a) == LowerStr(b)
    ensures IconForTask(a) == IconForTask(b)
  {
  }

  /** A keyword earlier in the order beats a later one. */
  lemma IconForTaskPrecedence(taskName: string)
    requires Contains(LowerStr(taskName), "filter")
    requires !Contains(LowerStr(taskName), "oil") && !Contains(LowerStr(taskName), "tire")
    ensures IconForTask(taskName) == "filter"
  {
  }

  /** "Air Filter Replacement" mentions both "filter" and "replace"; the
      earlier keyword decides. */
  lemma AirFilterReplacement()
    ensures IconForTask("Air Filter Replacement") == "filter"
  {
    var s := "air filter replacement";
    LowerAirFilter();
    NoOilNoTire(s);
    assert "filter" <= s[4..];
    IconForTaskPrecedence("Air Filter Replacement");
  }

  lemma LowerAirFilter()
    ensures LowerStr("Air Filter Replacement") == "air filter replacement"
  {
  }

  lemma NoOilNoTire(s: string)
    requires s == "air filter replacement"
    ensures !Contains(s, "oil") && !Contains(s, "tire")
  {
    forall i | 0 <= i <= |s| ensures !("oil" <= s[i..]) {
      NotPrefix(s[i..], "oil");
    }
    forall i | 0 <= i <= |s| ensures !("tire" <= s[i..]) {
      NotPrefix(s[i..], "tire");
    }
  }

  /** A text whose first two characters differ from those of `sub` does not
      start with `sub`. */
  lemma NotPrefix(t: string, sub: string)
    requires |sub| >= 2
    requires |t| < 2 || t[0] != sub[0] || t[1] != sub[1]
    ensures !(sub <= t)
  {
  }
}
