/** The form validators of `src/utils/validation.ts`. Each gives a verdict and
    the list of messages behind it; the composite validators collect their
    messages one check at a time, in a fixed order. */
module Validation {
  import opened Seqs
  import opened Text

  datatype Verdict = Verdict(isValid: bool, errors: seq<string>)

  /** An optional text field that is absent, empty or only whitespace. */
  predicate Missing(value: Option<string>)
  {
    value.None? || IsBlank(value.value)
  }

  /** `errors` is `order` with the messages that are not in `errors` left
      out: each listed message comes from `order`, at most once, in the order
      it has there. */
  predicate Follows(errors: seq<string>, order: seq<string>)
  {
    errors == Filter(order, (m: string) => m in errors)
  }

  /** `validateRequired`. */
  function ValidateRequired(value: Option<string>, fieldName: string): (r: Verdict)
    ensures r.isValid <==> r.errors == []
    ensures r.isValid <==> !Missing(value)
    ensures !r.isValid ==> r.errors == [fieldName + " is required"]
  {
    if value.None? || value.value == "" || |Trim(value.value)| == 0 then
      TrimEmptyIffBlank(if value.Some? then value.value else "");
      Verdict(false, [fieldName + " is required"])
    else
      TrimEmptyIffBlank(value.value);
      Verdict(true, [])
  }

  const EmailMessage := "Please enter a valid email address"
  const PhoneMessage := "Please enter a valid phone number"

  /** A character of `[^\s@]`. */
  predicate PlainChar(c: char)
  {
    !IsWhitespace(c) && c != '@'
  }

  predicate AllPlain(s: string)
  {
    forall i :: 0 <= i < |s| ==> PlainChar(s[i])
  }

  /** The strings `^[^\s@]+@[^\s@]+\.[^\s@]+$` matches: three non-empty runs
      of plain characters joined by an '@' and a '.'. */
  predicate EmailPattern(e: string)
  {
    exists k, j :: 0 < k && k + 1 < j && j + 1 < |e| && e[k] == '@' && e[j] == '.'
      && AllPlain(e[..k]) && AllPlain(e[k + 1..j]) && AllPlain(e[j + 1..])
  }

  /** The same language described by its properties: no whitespace, exactly
      one '@' with something before it, and after the '@' a '.' that is
      neither the first nor the last character there. */
  predicate EmailShape(e: string)
  {
    && (forall i :: 0 <= i < |e| ==> !IsWhitespace(e[i]))
    && exists k :: 0 < k < |e| && e[k] == '@'
         && (forall i :: 0 <= i < |e| && i != k ==> e[i] != '@')
         && exists j :: k + 1 < j < |e| - 1 && e[j] == '.'
  }

  lemma EmailPatternHasShape(e: string)
    requires EmailPattern(e)
    ensures EmailShape(e)
  {
    var k, j :| 0 < k && k + 1 < j && j + 1 < |e| && e[k] == '@' && e[j] == '.'
      && AllPlain(e[..k]) && AllPlain(e[k + 1..j]) && AllPlain(e[j + 1..]);
    forall i | 0 <= i < |e| && i != k
      ensures PlainChar(e[i]) || i == j
    {
      if i < k { assert e[i] == e[..k][i]; }
      else if i < j { assert e[i] == e[k + 1..j][i - k - 1]; }
      else if i > j { assert e[i] == e[j + 1..][i - j - 1]; }
    }
  }

  lemma EmailShapeMatchesPattern(e: string)
    requires EmailShape(e)
    ensures EmailPattern(e)
  {
    var k :| 0 < k < |e| && e[k] == '@'
         && (forall i :: 0 <= i < |e| && i != k ==> e[i] != '@')
         && exists j :: k + 1 < j < |e| - 1 && e[j] == '.';
    var j :| k + 1 < j < |e| - 1 && e[j] == '.';
    assert AllPlain(e[..k]) by {
      forall i | 0 <= i < k ensures PlainChar(e[..k][i]) { assert e[..k][i] == e[i]; }
    }
    var domain, suffix := e[k + 1..j], e[j + 1..];
    forall i | 0 <= i < |domain| ensures PlainChar(domain[i]) { assert domain[i] == e[k + 1 + i]; }
    forall i | 0 <= i < |suffix| ensures PlainChar(suffix[i]) { assert suffix[i] == e[j + 1 + i]; }
  }

  /** The pattern accepts exactly the strings of the described shape. */
  lemma EmailPatternIffShape(e: string)
    ensures EmailPattern(e) <==> EmailShape(e)
  {
    if EmailPattern(e) { EmailPatternHasShape(e); }
    if EmailShape(e) { EmailShapeMatchesPattern(e); }
  }

  /** `validateEmail`: the empty address is allowed, the field being optional. */
  function ValidateEmail(email: string): (r: Verdict)
    ensures r.isValid <==> r.errors == []
    ensures r.isValid <==> email == "" || EmailShape(email)
    ensures !r.isValid ==> r.errors == [EmailMessage]
  {
    EmailPatternIffShape(email);
    if email == "" then Verdict(true, [])
    else if !EmailPattern(email) then Verdict(false, [EmailMessage])
    else Verdict(true, [])
  }

  /** A character of `[\s\-\(\)\.]`, stripped before a phone number is checked. */
  predicate Formatting(c: char)
  {
    IsWhitespace(c) || c == '-' || c == '(' || c == ')' || c == '.'
  }

  predicate IsDigit(c: char)
  {
    '0' <= c <= '9'
  }

  function Cleaned(phone: string): (r: string)
    ensures forall i :: 0 <= i < |r| ==> !Formatting(r[i])
    ensures forall i :: 0 <= i < |phone| && !Formatting(phone[i]) ==> phone[i] in r
  {
    Filter(phone, (c: char) => !Formatting(c))
  }

  /** `/^\d{10,15}$/` on the cleaned number. */
  predicate PhoneDigits(cleaned: string)
  {
    10 <= |cleaned| <= 15 && forall i :: 0 <= i < |cleaned| ==> IsDigit(cleaned[i])
  }

  /** `validatePhone`: the empty number is allowed. */
  function ValidatePhone(phone: string): (r: Verdict)
    ensures r.isValid <==> r.errors == []
    ensures r.isValid <==> phone == "" || PhoneDigits(Cleaned(phone))
    ensures !r.isValid ==> r.errors == [PhoneMessage]
  {
    if phone == "" then Verdict(true, [])
    else if !PhoneDigits(Cleaned(phone)) then Verdict(false, [PhoneMessage])
    else Verdict(true, [])
  }

  /** A number written with a leading '+' is rejected: the '+' survives the
      cleaning and is not a digit. */
  lemma PlusRejected(phone: string)
    requires phone != "" && phone[0] == '+'
    ensures !ValidatePhone(phone).isValid
  {
    assert phone[0] in Cleaned(phone);
  }

  /** A formatting character anywhere in a number does not change the verdict. */
  lemma FormattingIgnored(a: string, c: char, b: string)
    requires Formatting(c) && a + b != ""
    ensures ValidatePhone(a + [c] + b) == ValidatePhone(a + b)
  {
    var keep := (x: char) => !Formatting(x);
    FilterConcat(a + [c], b, keep);
    FilterConcat(a, [c], keep);
    FilterConcat(a, b, keep);
    assert Filter([c], keep) == [] by { assert [c][..0] == []; }
  }

  /** `if (failed) errors.push(message)`. */
  method PushIf(errors: seq<string>, failed: bool, message: string) returns (r: seq<string>)
    ensures r == errors + (if failed then [message] else [])
  {
    r := errors;
    if failed {
      r := r + [message];
    }
  }

  const NameRequired := "Name is required"
  const NameTooLong := "Name must be less than 100 characters"
  const ItemMessages := [NameRequired, NameTooLong]

  /** `validateItem`: brand and model are not checked. A blank name of more
      than 100 characters gets both messages, the required one first. The
      length is JavaScript's, in UTF-16 code units. */
  method ValidateItem(name: Option<string>) returns (r: Verdict)
    ensures r.isValid <==> r.errors == []
    ensures r.isValid <==> !Missing(name) && Utf16Length(name.value) <= 100
    ensures NameRequired in r.errors <==> Missing(name)
    ensures NameTooLong in r.errors <==> name.Some? && Utf16Length(name.value) > 100
    ensures Follows(r.errors, ItemMessages)
  {
    TrimEmptyIffBlank(if name.Some? then name.value else "");
    var errors: seq<string> := [];
    errors := PushIf(errors, name.None? || |Trim(name.value)| == 0, NameRequired);
    errors := PushIf(errors, name.Some? && Utf16Length(name.value) > 100, NameTooLong);
    if |errors| == 2 {
      assert ItemMessages[0] == errors[0] && ItemMessages[1] == errors[1];
    }
    r := Verdict(|errors| == 0, errors);
  }

  /** Sixty emoji count as 120 UTF-16 code units, so such a name is too long. */
  lemma EmojiNameTooLong()
    ensures Utf16Length(seq(60, _ => '\U{1F600}')) > 100
  {
    AstralRunLength('\U{1F600}', 60);
  }

  const TaskNameRequired := "Task name is required"
  const IntervalNegative := "Interval must be a positive number"
  const CostInvalid := "Estimated cost must be a positive number"
  const TaskMessages := [TaskNameRequired, IntervalNegative, CostInvalid]

  /** The estimated-cost check: `parse` stands for `parseFloat`, giving None
      where it would give NaN. */
  predicate BadCost(cost: Option<string>, parse: string -> Option<int>)
  {
    cost.Some? && cost.value != "" && (parse(cost.value).None? || parse(cost.value).value < 0)
  }

  /** `validateTask`: an interval of 0 is accepted, a negative one is not. */
  method ValidateTask(name: Option<string>, intervalDays: Option<int>, estimatedCost: Option<string>,
                      parse: string -> Option<int>) returns (r: Verdict)
    ensures r.isValid <==> r.errors == []
    ensures TaskNameRequired in r.errors <==> Missing(name)
    ensures IntervalNegative in r.errors <==> intervalDays.Some? && intervalDays.value < 0
    ensures CostInvalid in r.errors <==> BadCost(estimatedCost, parse)
    ensures Follows(r.errors, TaskMessages)
  {
    TrimEmptyIffBlank(if name.Some? then name.value else "");
    var errors: seq<string> := [];
    errors := PushIf(errors, name.None? || |Trim(name.value)| == 0, TaskNameRequired);
    errors := PushIf(errors, intervalDays.Some? && intervalDays.value < 0, IntervalNegative);
    if estimatedCost.Some? && estimatedCost.value != "" {
      var cost := parse(estimatedCost.value);
      errors := PushIf(errors, cost.None? || cost.value < 0, CostInvalid);
    }
    FollowsThree(errors, TaskNameRequired, IntervalNegative, CostInvalid, Missing(name), intervalDays.Some? && intervalDays.value < 0,
                 BadCost(estimatedCost, parse));
    r := Verdict(|errors| == 0, errors);
  }

  /** A present email address `validateEmail` refuses; the empty one never is. */
  predicate EmailRejected(email: Option<string>)
  {
    email.Some? && !ValidateEmail(email.value).isValid
  }

  /** A present phone number `validatePhone` refuses; the empty one never is. */
  predicate PhoneRejected(phone: Option<string>)
  {
    phone.Some? && !ValidatePhone(phone.value).isValid
  }

  const ProviderNameRequired := "Provider name is required"
  const ProviderMessages := [ProviderNameRequired, EmailMessage, PhoneMessage]

  /** `validateProvider`: the name, then the email and phone verdicts' messages,
      each field giving at most one. */
  method ValidateProvider(name: Option<string>, email: Option<string>, phone: Option<string>)
    returns (r: Verdict)
    ensures r.isValid <==> r.errors == []
    ensures ProviderNameRequired in r.errors <==> Missing(name)
    ensures EmailMessage in r.errors <==> EmailRejected(email)
    ensures PhoneMessage in r.errors <==> PhoneRejected(phone)
    ensures r.isValid <==> !Missing(name) && !EmailRejected(email) && !PhoneRejected(phone)
    ensures Follows(r.errors, ProviderMessages)
  {
    TrimEmptyIffBlank(if name.Some? then name.value else "");
    var errors: seq<string> := [];
    ghost var x := Missing(name);
    ghost var y := EmailRejected(email);
    ghost var z := PhoneRejected(phone);
    errors := PushIf(errors, name.None? || |Trim(name.value)| == 0, ProviderNameRequired);
    errors := PushEmailErrors(errors, email);
    errors := PushPhoneErrors(errors, phone);
    ProviderMessagesDistinct();
    FollowsThree(errors, ProviderNameRequired, EmailMessage, PhoneMessage, x, y, z);
    r := Verdict(|errors| == 0, errors);
  }

  /** `if (email) errors.push(...validateEmail(email).errors)`. */
  method PushEmailErrors(errors: seq<string>, email: Option<string>) returns (r: seq<string>)
    ensures r == errors + (if EmailRejected(email) then [EmailMessage] else [])
  {
    r := errors;
    if email.Some? && email.value != "" {
      var emailResult := ValidateEmail(email.value);
      r := r + emailResult.errors;
    }
  }

  /** `if (phone) errors.push(...validatePhone(phone).errors)`. */
  method PushPhoneErrors(errors: seq<string>, phone: Option<string>) returns (r: seq<string>)
    ensures r == errors + (if PhoneRejected(phone) then [PhoneMessage] else [])
  {
    r := errors;
    if phone.Some? && phone.value != "" {
      var phoneResult := ValidatePhone(phone.value);
      r := r + phoneResult.errors;
    }
  }

  lemma ProviderMessagesDistinct()
    ensures ProviderNameRequired != EmailMessage && EmailMessage != PhoneMessage
    ensures ProviderNameRequired != PhoneMessage
  {
    assert EmailMessage[21] != PhoneMessage[21];
    assert EmailMessage[1] != ProviderNameRequired[1] && PhoneMessage[1] != ProviderNameRequired[1];
  }

  /** A list built by appending, in turn, at most one of three distinct
      messages keeps their order. */
  lemma FollowsThree(errors: seq<string>, m0: string, m1: string, m2: string, x: bool, y: bool, z: bool)
    requires m0 != m1 && m1 != m2 && m0 != m2
    requires errors == (if x then [m0] else []) + (if y then [m1] else []) + (if z then [m2] else [])
    ensures Follows(errors, [m0, m1, m2])
    ensures (m0 in errors <==> x) && (m1 in errors <==> y) && (m2 in errors <==> z)
    ensures errors == [] <==> !x && !y && !z
  {
    var order := [m0, m1, m2];
    var listed := (m: string) => m in errors;
    assert (m0 in errors <==> x) && (m1 in errors <==> y) && (m2 in errors <==> z);
    assert [m0][..0] == [];
    assert Filter([m0], listed) == (if x then [m0] else []);
    assert [m0, m1][..1] == [m0];
    assert Filter([m0, m1], listed) == Filter([m0], listed) + (if y then [m1] else []);
    assert order[..2] == [m0, m1];
    assert Filter(order, listed) == Filter([m0, m1], listed) + (if z then [m2] else []);
  }
}
