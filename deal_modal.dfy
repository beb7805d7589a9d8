/**
 * The deal dialog (`src/components/CRM/DealModal.tsx`): prefill from the
 * deal being edited, resolving the chosen contact, and the create/update
 * dispatch of the submit handler.
 */
module DealModal {
  import opened Common
  import opened Records
  import opened Services

  datatype DealForm = DealForm(
    title: string,
    company: string,
    value: real,
    dueDate: string,
    stage: string,
    contactId: string)

  const DefaultForm := DealForm("", "", 0.0, "", "prospect", "")

  /** The prefill effect: copy the deal being edited; with no deal the form is left as it is. */
  function Prefill(deal: Option<Deal>, current: DealForm): (r: DealForm)
    ensures deal.None? ==> r == current
    ensures deal.Some? ==>
      && r.title == deal.value.title && r.company == deal.value.company && r.value == deal.value.value
      && r.dueDate == deal.value.dueDate && r.stage == deal.value.stage
      && r.contactId == deal.value.contact.id
  {
    match deal
    case None => current
    case Some(d) => DealForm(d.title, d.company, d.value, d.dueDate, d.stage, d.contact.id)
  }

  /** What `handleSubmit` sends to the deals service. */
  datatype DealData = DealData(
    title: string,
    company: string,
    value: real,
    dueDate: string,
    stage: string,
    contact: Contact)

  /** The error thrown when no loaded contact has the chosen id. */
  datatype ContactNotFound = ContactNotFound

  /** The `contacts.find` lookup and the `dealData` object built from the form. */
  function BuildDealData(contacts: seq<Contact>, form: DealForm): (r: Result<DealData, ContactNotFound>)
    ensures r.Err? <==> forall c :: c in contacts ==> c.id != form.contactId
    ensures r.Ok? ==>
      && r.value.contact.id == form.contactId
      && (exists i :: 0 <= i < |contacts| && contacts[i] == r.value.contact
                      && forall k :: 0 <= k < i ==> contacts[k].id != form.contactId)
      && r.value.title == form.title && r.value.company == form.company && r.value.value == form.value
      && r.value.dueDate == form.dueDate && r.value.stage == form.stage
  {
    match FindIndex(contacts, (c: Contact) => c.id == form.contactId)
    case None => Err(ContactNotFound)
    case Some(i) =>
      var contact := contacts[i];
      Ok(DealData(form.title, form.company, form.value, form.dueDate, form.stage, contact))
  }

  /** Prefilling from a deal whose contact is loaded resolves that same contact id. */
  lemma PrefilledContactResolves(contacts: seq<Contact>, deal: Deal, current: DealForm)
    requires deal.contact in contacts
    ensures BuildDealData(contacts, Prefill(Some(deal), current)).Ok?
    ensures BuildDealData(contacts, Prefill(Some(deal), current)).value.contact.id == deal.contact.id
  {
  }

  /** The errors the dialog shows; `Message` gives their text. */
  datatype DealError = LoadContactsFailed | SaveFailed(editing: bool)

  function Message(e: DealError): string {
    match e
    case LoadContactsFailed => "Erro ao carregar contatos"
    case SaveFailed(editing) => "Erro ao " + (if editing then "atualizar" else "criar") + " negociação"
  }

  datatype DealCall = CreateDeal(data: DealData) | UpdateDeal(id: string, data: DealData)

  datatype Callback = OnSuccess | OnClose

  class DealModalState {
    var form: DealForm
    var contacts: seq<Contact>
    var isLoading: bool
    var error: Option<DealError>
    /** Calls made to the deals service. */
    var calls: seq<DealCall>
    /** The parent's callbacks, in the order they ran. */
    var fired: seq<Callback>

    constructor ()
      ensures form == DefaultForm && contacts == [] && !isLoading && error == None
      ensures calls == [] && fired == []
    {
      form := DefaultForm;
      contacts := [];
      isLoading := false;
      error := None;
      calls := [];
      fired := [];
    }

    /** `loadContacts`, with the service's answer as `fetched` (`None` when it threw). */
    method LoadContacts(fetched: Option<seq<Contact>>)
      modifies this`contacts, this`error
      ensures fetched.Some? ==> contacts == fetched.value && error == old(error)
      ensures fetched.None? ==> contacts == old(contacts) && error == Some(LoadContactsFailed)
    {
      if fetched.Some? {
        contacts := fetched.value;
      } else {
        error := Some(LoadContactsFailed);
      }
    }

    method ApplyPrefill(deal: Option<Deal>)
      modifies this`form
      ensures form == Prefill(deal, old(form))
    {
      form := Prefill(deal, form);
    }

    /**
     * `handleSubmit`.  `serviceOk` is whether the deals service's create or
     * update call succeeded.
     */
    method Submit(deal: Option<Deal>, serviceOk: bool)
      modifies this`isLoading, this`error, this`calls, this`fired
      ensures !isLoading
      ensures BuildDealData(contacts, form).Err? ==>
        calls == old(calls) && fired == old(fired) && error == Some(SaveFailed(deal.Some?))
      ensures BuildDealData(contacts, form).Ok? ==>
        var data := BuildDealData(contacts, form).value;
        && calls == old(calls) + [if deal.Some? then UpdateDeal(deal.value.id, data) else CreateDeal(data)]
        && (serviceOk ==> fired == old(fired) + [OnSuccess, OnClose] && error == None)
        && (!serviceOk ==> fired == old(fired) && error == Some(SaveFailed(deal.Some?)))
    {
      isLoading := true;
      error := None;
      var built := BuildDealData(contacts, form);
      if built.Err? {
        error := Some(SaveFailed(deal.Some?));
      } else {
        var call := if deal.Some? then UpdateDeal(deal.value.id, built.value) else CreateDeal(built.value);
        calls := calls + [call];
        if serviceOk {
          fired := fired + [OnSuccess, OnClose];
        } else {
          error := Some(SaveFailed(deal.Some?));
        }
      }
      isLoading := false;
    }

    /**
     * `handleSubmit` with the deals service as written: after the insert
     * or update its `create` and `update` call `contactsService.getById`,
     * which does not exist, so every save throws once the deal is written.
     * The dialog shows the generic error and stays open, and a second
     * submit writes the deal again.
     */
    method SubmitAsWritten(deal: Option<Deal>, queryError: Option<string>)
      modifies this`isLoading, this`error, this`calls, this`fired
      ensures !isLoading
      ensures fired == old(fired) && error == Some(SaveFailed(deal.Some?))
      ensures BuildDealData(contacts, form).Err? ==> calls == old(calls)
      ensures BuildDealData(contacts, form).Ok? ==>
        var data := BuildDealData(contacts, form).value;
        calls == old(calls) + [if deal.Some? then UpdateDeal(deal.value.id, data) else CreateDeal(data)]
    {
      Submit(deal, CallError(ContactsServiceDefines(GetById), queryError).None?);
    }
  }
}
