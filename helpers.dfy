/** The small text helpers of `src/utils/helpers.ts`. The clock hour that
    `getGreeting` reads is a parameter. */
module Helpers {
  import opened Seqs
  import opened Text

  /** `getGreeting`: the greeting for an hour of the day. */
  function Greeting(hour: int): (r: string)
    ensures r == "Good morning" <==> hour < 12
    ensures r == "Good afternoon" <==> 12 <= hour < 17
    ensures r == "Good evening" <==> 17 <= hour
  {
    if hour < 12 then "Good morning"
    else if hour < 17 then "Good afternoon"
    else "Good evening"
  }

  /** `text.substring(0, end)`: a negative end counts as 0, one past the
      length as the length. */
  function Substring0(text: string, end: int): (r: string)
    ensures |r| == if end <= 0 then 0 else if end >= |text| then |text| else end
    ensures r <= text
  {
    if end <= 0 then [] else if end >= |text| then text else text[..end]
  }

  /** `truncateText`: text that fits is returned whole; longer text keeps its
      first `maxLength - 3` characters followed by an ellipsis. */
  function TruncateText(text: string, maxLength: int): (r: string)
    ensures |text| <= maxLength ==> r == text
    ensures |text| > maxLength ==> |r| == (if maxLength >= 3 then maxLength else 3)
    ensures |text| > maxLength ==> r[..|r| - 3] <= text && r[|r| - 3..] == "..."
  {
    if |text| <= maxLength then text else Substring0(text, maxLength - 3) + "..."
  }

  /** With room for the ellipsis, truncating twice is truncating once. */
  lemma TruncateIdempotent(text: string, maxLength: int)
    requires maxLength >= 3
    ensures TruncateText(TruncateText(text, maxLength), maxLength) == TruncateText(text, maxLength)
    ensures |TruncateText(text, maxLength)| <= maxLength
  {
  }

  /** `capitalizeFirst`: the first character upper-cased, the rest untouched. */
  function CapitalizeFirst(s: string): (r: string)
    ensures |r| == |s|
    ensures s != [] ==> r[0] == Upper(s[0]) && r[1..] == s[1..]
    ensures forall i :: 1 <= i < |s| ==> r[i] == s[i]
  {
    if s == [] then [] else [Upper(s[0])] + s[1..]
  }

  /** `pluralize`: the singular for exactly one, otherwise the given plural
      when it is non-empty, else the singular with an "s". */
  function Pluralize(count: int, singular: string, plural: Option<string>): (r: string)
    ensures count == 1 ==> r == singular
    ensures count != 1 && plural.Some? && plural.value != "" ==> r == plural.value
    ensures count != 1 && (plural.None? || plural.value == "") ==> r == singular + "s"
  {
    if count == 1 then singular
    else if plural.Some? && plural.value != "" then plural.value
    else singular + "s"
  }

  /** Without an explicit plural, the answer is the singular exactly when the
      count is one. */
  lemma PluralizeSingularIff(count: int, singular: string)
    ensures Pluralize(count, singular, None) == singular <==> count == 1
  {
    if count != 1 {
      assert |Pluralize(count, singular, None)| == |singular| + 1;
    }
  }
}
