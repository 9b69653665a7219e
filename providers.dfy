/** The service-provider directory of
    `src/screens/providers/ProvidersScreen.tsx`: a list of providers kept in
    the screen's state and written to storage on every change, and the form
    that adds a provider or edits one. The list is built as a new value
    (append, replace by id, remove by id) and then stored and set. */
module Providers {
  import opened Seqs
  import opened Text

  datatype ProviderType = Mechanic | Plumber | Electrician | Hvac | Handyman | OtherProvider

  function ProviderTypeName(t: ProviderType): string
  {
    match t
    case Mechanic => "mechanic"
    case Plumber => "plumber"
    case Electrician => "electrician"
    case Hvac => "hvac"
    case Handyman => "handyman"
    case OtherProvider => "other"
  }

  datatype Provider = Provider(
    id: string,
    name: string,
    kind: ProviderType,
    phone: Option<string>,
    email: Option<string>,
    address: Option<string>,
    website: Option<string>,
    notes: Option<string>,
    rating: Option<int>,
    createdAt: string)

  /** The form's text fields and the chosen type. */
  datatype Form = Form(name: string, kind: ProviderType, phone: string, email: string, address: string,
                       website: string, notes: string)

  const BlankForm: Form := Form("", Mechanic, "", "", "", "", "")

  const NameRequired: string := "Please enter a name"

  /** `getTypeIcon`: the icon of the `PROVIDER_TYPES` entry for the text,
      'person' when there is none. */
  function TypeIcon(providerType: string): (r: string)
    ensures providerType == "mechanic" ==> r == "car"
    ensures providerType == "plumber" ==> r == "water"
    ensures providerType == "electrician" ==> r == "flash"
    ensures providerType == "hvac" ==> r == "thermometer"
    ensures providerType == "handyman" ==> r == "construct"
    ensures providerType !in {"mechanic", "plumber", "electrician", "hvac", "handyman"} ==> r == "person"
  {
    if providerType == "mechanic" then "car"
    else if providerType == "plumber" then "water"
    else if providerType == "electrician" then "flash"
    else if providerType == "hvac" then "thermometer"
    else if providerType == "handyman" then "construct"
    else "person"
  }

  /** `s.trim() || undefined`. */
  function OptionalField(s: string): (r: Option<string>)
    ensures r.None? <==> IsBlank(s)
    ensures r.Some? ==> r.value == Trim(s) && |r.value| <= |s|
  {
    TrimEmptyIffBlank(s);
    if Trim(s) == "" then None else Some(Trim(s))
  }

  /** `editingProvider?.x || fallback` for a text field of the edited record. */
  function KeptOr(editing: Option<Provider>, field: Provider -> string, fallback: string): (r: string)
    ensures editing.Some? && field(editing.value) != "" ==> r == field(editing.value)
    ensures editing.None? ==> r == fallback
  {
    if editing.Some? && field(editing.value) != "" then field(editing.value) else fallback
  }

  function IdOf(p: Provider): string
  {
    p.id
  }

  function CreatedAtOf(p: Provider): string
  {
    p.createdAt
  }

  /** The record `handleSave` builds from the form: the edited record's id
      and creation time, or a new id and the current time; trimmed fields.
      The rating is not part of the form and is not carried over. */
  function Built(form: Form, editing: Option<Provider>, newId: string, nowText: string): (r: Provider)
    ensures r.name == Trim(form.name) && r.kind == form.kind
    ensures r.phone == OptionalField(form.phone) && r.email == OptionalField(form.email)
    ensures r.address == OptionalField(form.address) && r.website == OptionalField(form.website)
    ensures r.notes == OptionalField(form.notes)
    ensures r.rating.None?
    ensures editing.Some? && editing.value.id != "" ==> r.id == editing.value.id
    ensures editing.Some? && editing.value.createdAt != "" ==> r.createdAt == editing.value.createdAt
    ensures editing.None? ==> r.id == newId && r.createdAt == nowText
  {
    Provider(KeptOr(editing, IdOf, newId), Trim(form.name), form.kind,
             OptionalField(form.phone), OptionalField(form.email), OptionalField(form.address),
             OptionalField(form.website), OptionalField(form.notes), None,
             KeptOr(editing, CreatedAtOf, nowText))
  }

  function Replacing(id: string, p: Provider): Provider -> Provider
  {
    (q: Provider) => if q.id == id then p else q
  }

  /** The new list: every record with the edited id replaced, or the new
      record appended. */
  function Upserted(providers: seq<Provider>, p: Provider, editing: Option<Provider>): seq<Provider>
  {
    if editing.Some? then Map(providers, Replacing(editing.value.id, p)) else providers + [p]
  }

  /** `handleSave`'s outcome: none when the trimmed name is empty, otherwise
      the list to store. */
  function SaveResult(providers: seq<Provider>, form: Form, editing: Option<Provider>, newId: string,
                      nowText: string): (r: Option<seq<Provider>>)
    ensures r.None? <==> IsBlank(form.name)
  {
    TrimEmptyIffBlank(form.name);
    if Trim(form.name) == "" then None
    else Some(Upserted(providers, Built(form, editing, newId, nowText), editing))
  }

  function WithoutId(id: string): Provider -> bool
  {
    (p: Provider) => p.id != id
  }

  /** `providers.filter(p => p.id !== id)`. */
  function Deleted(providers: seq<Provider>, id: string): seq<Provider>
  {
    Filter(providers, WithoutId(id))
  }

  /** Adding puts exactly one record at the end and keeps the rest. */
  lemma AddAppends(providers: seq<Provider>, form: Form, newId: string, nowText: string)
    requires !IsBlank(form.name)
    ensures var r := SaveResult(providers, form, None, newId, nowText).value;
      && |r| == |providers| + 1
      && r[..|providers|] == providers
      && r[|providers|] == Built(form, None, newId, nowText)
      && r[|providers|].id == newId
  {
  }

  /** Editing keeps the length, replaces exactly the records with the edited
      id by the new record, which keeps that id and creation time, and leaves
      every other record where it was. */
  lemma EditReplaces(providers: seq<Provider>, form: Form, e: Provider, newId: string, nowText: string)
    requires !IsBlank(form.name)
    ensures var r := SaveResult(providers, form, Some(e), newId, nowText).value;
      && |r| == |providers|
      && (forall i :: 0 <= i < |r| && providers[i].id != e.id ==> r[i] == providers[i])
      && (forall i :: 0 <= i < |r| && providers[i].id == e.id ==> r[i] == Built(form, Some(e), newId, nowText))
  {
    var r := SaveResult(providers, form, Some(e), newId, nowText).value;
    assert r == Map(providers, Replacing(e.id, Built(form, Some(e), newId, nowText)));
  }

  /** Editing a record whose id is set leaves the ids of the list as they
      were. */
  lemma EditKeepsIds(providers: seq<Provider>, form: Form, e: Provider, newId: string, nowText: string)
    requires !IsBlank(form.name) && e.id != ""
    ensures var r := SaveResult(providers, form, Some(e), newId, nowText).value;
      forall i :: 0 <= i < |r| ==> r[i].id == providers[i].id
  {
    EditReplaces(providers, form, e, newId, nowText);
  }

  /** Delete removes exactly the records with that id; every other record is
      kept. */
  lemma DeleteRemovesExactly(providers: seq<Provider>, id: string)
    ensures forall i :: 0 <= i < |Deleted(providers, id)| ==> Deleted(providers, id)[i].id != id
    ensures forall p :: p in providers && p.id != id ==> p in Deleted(providers, id)
    ensures forall p :: p in Deleted(providers, id) ==> p in providers
    ensures multiset(Deleted(providers, id)) <= multiset(providers)
  {
    forall p | p in providers && p.id != id
      ensures p in Deleted(providers, id)
    {
      var k :| 0 <= k < |providers| && providers[k] == p;
      assert WithoutId(id)(providers[k]);
    }
  }

  /** Deleting an id no record has keeps the list as it is, order included. */
  lemma DeleteMissingId(providers: seq<Provider>, id: string)
    requires forall i :: 0 <= i < |providers| ==> providers[i].id != id
    ensures Deleted(providers, id) == providers
  {
    FilterAll(providers, WithoutId(id));
  }

  /** Deleting twice is deleting once. */
  lemma DeleteIdempotent(providers: seq<Provider>, id: string)
    ensures Deleted(Deleted(providers, id), id) == Deleted(providers, id)
  {
    DeleteMissingId(Deleted(providers, id), id);
  }

  /** The form filled from a record for editing: absent fields become empty. */
  function FormOf(p: Provider): Form
  {
    Form(p.name, p.kind, OrEmpty(p.phone), OrEmpty(p.email), OrEmpty(p.address), OrEmpty(p.website),
         OrEmpty(p.notes))
  }

  function OrEmpty(o: Option<string>): (r: string)
    ensures o.None? ==> r == ""
    ensures o.Some? ==> r == o.value
  {
    if o.Some? then o.value else ""
  }

  /** The screen's state: the list, what storage holds under the providers
      key, and the form. */
  class ProvidersScreen {
    var providers: seq<Provider>
    var stored: Option<seq<Provider>>
    var form: Form
    var editing: Option<Provider>
    var showAddForm: bool

    constructor(stored0: Option<seq<Provider>>)
      ensures providers == [] && stored == stored0
      ensures form == BlankForm && editing.None? && !showAddForm
    {
      providers := [];
      stored := stored0;
      form := BlankForm;
      editing := None;
      showAddForm := false;
    }

    /** `loadProviders`: the stored list, if any, replaces the list. */
    method Load()
      modifies this
      ensures stored.Some? ==> providers == stored.value
      ensures stored.None? ==> providers == old(providers)
      ensures stored == old(stored) && form == old(form) && editing == old(editing)
      ensures showAddForm == old(showAddForm)
    {
      if stored.Some? {
        providers := stored.value;
      }
    }

    /** `saveProviders`: store the list, then set it. */
    method Save(newProviders: seq<Provider>)
      modifies this
      ensures stored == Some(newProviders) && providers == newProviders
      ensures form == old(form) && editing == old(editing) && showAddForm == old(showAddForm)
    {
      stored := Some(newProviders);
      providers := newProviders;
    }

    /** `resetForm`. */
    method ResetForm()
      modifies this
      ensures form == BlankForm && editing.None? && !showAddForm
      ensures providers == old(providers) && stored == old(stored)
    {
      form := BlankForm;
      editing := None;
      showAddForm := false;
    }

    /** `editProvider`: the form shows the record and remembers it. */
    method EditProvider(p: Provider)
      modifies this
      ensures form == FormOf(p) && editing == Some(p) && showAddForm
      ensures providers == old(providers) && stored == old(stored)
    {
      form := FormOf(p);
      editing := Some(p);
      showAddForm := true;
    }

    /** `handleSave`: with a blank name an error and nothing changes;
        otherwise the new list is stored and set and the form is reset. */
    method HandleSave(newId: string, nowText: string) returns (error: Option<string>)
      modifies this
      ensures var next := SaveResult(old(providers), old(form), old(editing), newId, nowText);
        && (next.None? ==>
              (&& error == Some(NameRequired) && providers == old(providers)
               && stored == old(stored) && form == old(form) && editing == old(editing)
               && showAddForm == old(showAddForm)))
        && (next.Some? ==>
              (&& error.None? && providers == next.value && stored == Some(next.value)
               && form == BlankForm && editing.None? && !showAddForm))
    {
      var next := SaveResult(providers, form, editing, newId, nowText);
      if next.None? {
        return Some(NameRequired);
      }
      Save(next.value);
      ResetForm();
      error := None;
    }

    /** The confirmed delete: the list without that id is stored and set. */
    method HandleDelete(id: string)
      modifies this
      ensures providers == Deleted(old(providers), id) && stored == Some(providers)
      ensures form == old(form) && editing == old(editing) && showAddForm == old(showAddForm)
    {
      Save(Deleted(providers, id));
    }
  }
}
