/**
 * The contact form's tag picker and reset (`src/components/Contacts/ContactModal.tsx`).
 */
module ContactModal {
  import opened Common
  import opened Records
  import opened Services

  datatype ContactForm = ContactForm(
    name: string,
    email: string,
    phone: string,
    company: string,
    position: string,
    source: string,
    status: string,
    notes: string)

  const EmptyForm := ContactForm("", "", "", "", "", "manual", "active", "")

  const AddTagFailed := "Erro ao adicionar etiqueta"
  const LoadContactFailed := "Erro ao carregar contato"

  /** `x || ''` on optional text. */
  function TextOrEmpty(o: Option<string>): string {
    match o
    case Some(s) => s
    case None => ""
  }

  /** The form a loaded contact fills in: every field copied, absent optional text shown as `''`. */
  function FormOf(c: Contact): (r: ContactForm)
    ensures r.name == c.name && r.email == c.email && r.phone == c.phone
    ensures r.source == c.source && r.status == c.status
    ensures c.company.Some? ==> r.company == c.company.value
    ensures c.position.Some? ==> r.position == c.position.value
    ensures c.notes.Some? ==> r.notes == c.notes.value
    ensures c.company.None? ==> r.company == ""
    ensures c.position.None? ==> r.position == ""
    ensures c.notes.None? ==> r.notes == ""
  {
    ContactForm(c.name, c.email, c.phone, TextOrEmpty(c.company), TextOrEmpty(c.position),
                c.source, c.status, TextOrEmpty(c.notes))
  }

  /** No two tags share an id. */
  predicate DistinctIds(tags: seq<Tag>) {
    forall i, j :: 0 <= i < j < |tags| ==> tags[i].id != tags[j].id
  }

  predicate NameMatches(t: Tag, input: string) {
    Lower(t.name) == Lower(Trim(input))
  }

  /** The existing-tag lookup: the first available tag whose name equals the trimmed input, ignoring case. */
  function FindTagByName(availableTags: seq<Tag>, input: string): (r: Option<Tag>)
    ensures r.Some? ==> r.value in availableTags && NameMatches(r.value, input)
    ensures r.Some? ==> exists i :: 0 <= i < |availableTags| && availableTags[i] == r.value
                          && forall k :: 0 <= k < i ==> !NameMatches(availableTags[k], input)
    ensures r.None? <==> forall t :: t in availableTags ==> !NameMatches(t, input)
  {
    match FindIndex(availableTags, (t: Tag) => NameMatches(t, input))
    case None => None
    case Some(i) => Some(availableTags[i])
  }

  /** Adding an existing tag: appended unless a tag with its id is already chosen. */
  function AddExistingTag(tags: seq<Tag>, t: Tag): (r: seq<Tag>)
    ensures HasTagId(tags, t.id) ==> r == tags
    ensures !HasTagId(tags, t.id) ==> r == tags + [t]
    ensures DistinctIds(tags) ==> DistinctIds(r)
  {
    if HasTagId(tags, t.id) then tags else tags + [t]
  }

  /** `handleRemoveTag`. */
  function RemoveTag(tags: seq<Tag>, t: Tag): (r: seq<Tag>)
    ensures !HasTagId(r, t.id)
    ensures forall x :: x in tags && x.id != t.id ==> x in r
    ensures forall x :: x in r ==> x in tags
    ensures forall x :: multiset(r)[x] == if x.id != t.id then multiset(tags)[x] else 0
    ensures IsSubsequence(r, tags)
  {
    FilterMultiplicity(tags, (x: Tag) => x.id != t.id);
    FilterIsSubsequence(tags, (x: Tag) => x.id != t.id);
    Filter(tags, (x: Tag) => x.id != t.id)
  }

  /** The buttons under "Tags disponíveis": the available tags not yet chosen, in order. */
  function UnchosenTags(availableTags: seq<Tag>, tags: seq<Tag>): (r: seq<Tag>)
    ensures forall a :: a in r <==> a in availableTags && !HasTagId(tags, a.id)
    ensures forall a :: multiset(r)[a] == if !HasTagId(tags, a.id) then multiset(availableTags)[a] else 0
    ensures IsSubsequence(r, availableTags)
  {
    FilterMultiplicity(availableTags, (a: Tag) => !HasTagId(tags, a.id));
    FilterIsSubsequence(availableTags, (a: Tag) => !HasTagId(tags, a.id));
    Filter(availableTags, (a: Tag) => !HasTagId(tags, a.id))
  }

  /** Removing a chosen tag makes it available again. */
  lemma RemovedTagIsOfferedAgain(availableTags: seq<Tag>, tags: seq<Tag>, t: Tag)
    requires t in availableTags
    ensures t in UnchosenTags(availableTags, RemoveTag(tags, t))
  {
  }

  /** The name and status sent to the tags service's `create` for a typed tag; its random colour is not modelled. */
  datatype NewTagRequest = NewTagRequest(name: string, status: string)

  class ContactFormState {
    var form: ContactForm
    var tags: seq<Tag>
    var availableTags: seq<Tag>
    var tagInput: string
    var error: Option<string>
    /** The `create` requests made for typed tags, in order. */
    var createRequests: seq<NewTagRequest>

    constructor (availableTags: seq<Tag>)
      ensures form == EmptyForm && tags == [] && this.availableTags == availableTags
      ensures tagInput == "" && error == None && createRequests == []
    {
      form := EmptyForm;
      tags := [];
      this.availableTags := availableTags;
      tagInput := "";
      error := None;
      createRequests := [];
    }

    /** `resetForm`: back to the empty form with no tag chosen; the loaded tags stay. */
    method ResetForm()
      modifies this`form, this`tags, this`tagInput, this`error
      ensures form == EmptyForm && tags == [] && tagInput == "" && error == None
    {
      form := EmptyForm;
      tags := [];
      tagInput := "";
      error := None;
    }

    /**
     * `loadContact`, with the contacts service's answer as `fetched`
     * (`None` when it threw).  Without a (non-empty) contact id it does
     * nothing.
     */
    method LoadContact(contactId: Option<string>, fetched: Option<Contact>)
      modifies this`form, this`tags, this`error
      ensures !Truthy(contactId) ==> form == old(form) && tags == old(tags) && error == old(error)
      ensures Truthy(contactId) && fetched.Some? ==>
        form == FormOf(fetched.value) && tags == fetched.value.tags && error == old(error)
      ensures Truthy(contactId) && fetched.None? ==>
        form == old(form) && tags == old(tags) && error == Some(LoadContactFailed)
    {
      if !Truthy(contactId) {
        return;
      }
      if fetched.Some? {
        form := FormOf(fetched.value);
        tags := fetched.value.tags;
      } else {
        error := Some(LoadContactFailed);
      }
    }

    /**
     * With the contacts service as written, which has no `getById`, loading
     * a contact always fails: the form keeps its contents and shows the
     * load error.
     */
    method LoadContactAsWritten(contactId: Option<string>, queryError: Option<string>, answer: Contact)
      modifies this`form, this`tags, this`error
      ensures Truthy(contactId) ==> form == old(form) && tags == old(tags) && error == Some(LoadContactFailed)
    {
      var fetched := if CallError(ContactsServiceDefines(GetById), queryError).None? then Some(answer) else None;
      LoadContact(contactId, fetched);
    }

    /**
     * `handleAddTag` for a key press.  When no available tag has the typed
     * name the source asks the tags service to create one, named by the
     * trimmed input and active; `created` is that call's answer (`None`
     * when it threw).
     */
    method HandleAddTag(key: string, created: Option<Tag>)
      modifies this`tags, this`availableTags, this`tagInput, this`error, this`createRequests
      ensures key != "Enter" || IsBlank(old(tagInput)) ==>
        tags == old(tags) && availableTags == old(availableTags) && tagInput == old(tagInput) && error == old(error)
        && createRequests == old(createRequests)
      ensures key == "Enter" && !IsBlank(old(tagInput)) && FindTagByName(old(availableTags), old(tagInput)).Some? ==>
        && tags == AddExistingTag(old(tags), FindTagByName(old(availableTags), old(tagInput)).value)
        && availableTags == old(availableTags) && tagInput == "" && error == old(error)
        && createRequests == old(createRequests)
      ensures key == "Enter" && !IsBlank(old(tagInput)) && FindTagByName(old(availableTags), old(tagInput)).None? ==>
        createRequests == old(createRequests) + [NewTagRequest(Trim(old(tagInput)), "active")]
      ensures key == "Enter" && !IsBlank(old(tagInput)) && FindTagByName(old(availableTags), old(tagInput)).None? ==>
        if created.Some? then
          tags == old(tags) + [created.value] && availableTags == old(availableTags) + [created.value]
          && tagInput == "" && error == old(error)
        else
          tags == old(tags) && availableTags == old(availableTags) && tagInput == old(tagInput)
          && error == Some(AddTagFailed)
    {
      if key == "Enter" && !IsBlank(tagInput) {
        var existing := FindTagByName(availableTags, tagInput);
        if existing.Some? {
          tags := AddExistingTag(tags, existing.value);
          tagInput := "";
        } else {
          createRequests := createRequests + [NewTagRequest(Trim(tagInput), "active")];
          if created.Some? {
            tags := tags + [created.value];
            availableTags := availableTags + [created.value];
            tagInput := "";
          } else {
            error := Some(AddTagFailed);
          }
        }
      }
    }

    method HandleRemoveTag(t: Tag)
      modifies this`tags
      ensures tags == RemoveTag(old(tags), t)
    {
      tags := RemoveTag(tags, t);
    }

    /** A click on one of the offered tag buttons appends that tag. */
    method PickOfferedTag(t: Tag)
      requires t in UnchosenTags(availableTags, tags)
      modifies this`tags
      ensures tags == old(tags) + [t]
      ensures DistinctIds(old(tags)) ==> DistinctIds(tags)
    {
      tags := tags + [t];
    }
  }
}
