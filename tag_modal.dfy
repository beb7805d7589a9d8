/**
 * The tag form (`src/components/Tags/TagModal.tsx`): colour normalisation,
 * validation, prefill, and the submit step with its error messages.
 */
module TagModal {
  import opened Common
  import opened Records
  import opened Services

  datatype TagForm = TagForm(name: string, color: string, status: string)

  const DefaultColor := "#3B82F6"
  /** The database's unique-violation code. */
  const UniqueViolation := "23505"

  const DefaultForm := TagForm("", DefaultColor, "active")

  /** The errors the form can show; `Message` gives their text. */
  datatype FormError = NameRequired | InvalidColor | DuplicateName | SaveFailed(editing: bool)

  function Message(e: FormError): string {
    match e
    case NameRequired => "O nome da etiqueta é obrigatório"
    case InvalidColor => "Formato de cor inválido. Use o formato #RRGGBB"
    case DuplicateName => "Já existe uma etiqueta com este nome"
    case SaveFailed(editing) =>
      "Erro ao " + (if editing then "atualizar" else "criar") + " etiqueta. Por favor, tente novamente."
  }

  /** The colour rewrite of `handleChange`. */
  function NormalizeColor(value: string): (r: string)
    ensures |r| > 0 && r[0] == '#'
    ensures IsUpperCase(r)
    ensures |value| > 0 && value[0] == '#' ==> r == Upper(value)
    ensures |r| == (if |value| > 0 && value[0] == '#' then |value| else |value| + 1)
  {
    if |value| > 0 && value[0] == '#' then Upper(value) else "#" + Upper(value)
  }

  /** Normalising twice is normalising once. */
  lemma NormalizeColorIdempotent(value: string)
    ensures NormalizeColor(NormalizeColor(value)) == NormalizeColor(value)
  {
    UpperOfUpperCase(NormalizeColor(value));
  }

  predicate IsUpperHexDigit(c: char) {
    '0' <= c <= '9' || 'A' <= c <= 'F'
  }

  /** `/^#[0-9A-F]{6}$/.test(color)`. */
  predicate IsColorCode(color: string) {
    |color| == 7 && color[0] == '#' && forall i :: 1 <= i < 7 ==> IsUpperHexDigit(color[i])
  }

  /** A lower-case hex digit makes a colour invalid. */
  lemma LowercaseHexRejected(color: string, i: int)
    requires 1 <= i < |color| && 'a' <= color[i] <= 'f'
    ensures !IsColorCode(color)
  {
  }

  /** Typing six hex digits, in either case and with or without `#`, yields a valid colour. */
  lemma NormalizedHexDigitsAreValid(value: string)
    requires |value| == 6 || (|value| == 7 && value[0] == '#')
    requires forall i :: (if |value| == 7 then 1 else 0) <= i < |value| ==>
      '0' <= value[i] <= '9' || 'A' <= value[i] <= 'F' || 'a' <= value[i] <= 'f'
    ensures IsColorCode(NormalizeColor(value))
  {
    var r := NormalizeColor(value);
    var off := if |value| == 7 then 0 else 1;
    forall i | 1 <= i < 7 ensures IsUpperHexDigit(r[i]) {
      assert r[i] == UpperChar(value[i - off]);
    }
  }

  /** `validateForm`: `None` when the form may be saved, else the message it shows. */
  function ValidateForm(form: TagForm): (r: Option<FormError>)
    ensures r.None? <==> !IsBlank(form.name) && IsColorCode(form.color)
    ensures IsBlank(form.name) ==> r == Some(NameRequired)
    ensures !IsBlank(form.name) && !IsColorCode(form.color) ==> r == Some(InvalidColor)
  {
    if IsBlank(form.name) then Some(NameRequired)
    else if !IsColorCode(form.color) then Some(InvalidColor)
    else None
  }

  /** The prefill effect: copy the tag being edited, else the defaults. */
  function Prefill(tag: Option<Tag>): (r: TagForm)
    ensures tag.Some? ==> r.name == tag.value.name && r.status == tag.value.status && r.color == Upper(tag.value.color)
    ensures tag.Some? ==> IsUpperCase(r.color)
    ensures tag.None? ==> r == DefaultForm
  {
    match tag
    case Some(t) => TagForm(t.name, Upper(t.color), t.status)
    case None => DefaultForm
  }

  /** The default colour passes validation, so only the name stands between a new form and saving. */
  lemma DefaultColorIsValid()
    ensures IsColorCode(DefaultColor)
    ensures ValidateForm(DefaultForm.(name := "x")) == None
  {
    assert DefaultColor[1] == '3' && DefaultColor[2] == 'B' && DefaultColor[3] == '8';
    assert DefaultColor[4] == '2' && DefaultColor[5] == 'F' && DefaultColor[6] == '6';
    assert !IsBlank("x") by {
      assert "x"[0] == 'x';
    }
  }

  /** The error a failed save shows, from the error's `code`. */
  function SubmitError(code: string, editing: bool): (r: FormError)
    ensures r == DuplicateName <==> code == UniqueViolation
    ensures r != DuplicateName ==> r == SaveFailed(editing)
  {
    if code == UniqueViolation then DuplicateName else SaveFailed(editing)
  }

  datatype TagCall = CreateTag(data: TagForm) | UpdateTag(id: string, data: TagForm)

  /** The service call a valid form makes: update the tag being edited, else create one; the colour is saved upper-cased. */
  function SaveCall(tag: Option<Tag>, form: TagForm): (r: TagCall)
    ensures r.UpdateTag? <==> tag.Some?
    ensures r.UpdateTag? ==> r.id == tag.value.id
    ensures r.data.name == form.name && r.data.status == form.status && r.data.color == Upper(form.color)
  {
    var data := form.(color := Upper(form.color));
    if tag.Some? then UpdateTag(tag.value.id, data) else CreateTag(data)
  }

  /** The error left after a save: none on success, else the one mapped from the error's code. */
  function SaveOutcome(failure: Option<string>, editing: bool): (r: Option<FormError>)
    ensures r.None? <==> failure.None?
    ensures r.Some? ==> r.value == SubmitError(failure.value, editing)
  {
    if failure.None? then None else Some(SubmitError(failure.value, editing))
  }

  /** The service operation a save call uses. */
  function OperationOf(call: TagCall): Operation {
    match call
    case CreateTag(_) => Create
    case UpdateTag(_, _) => Update
  }

  /**
   * With the tags service as written, which has no `update`, saving an
   * edited tag always throws; the form then shows the generic update error
   * and `onSuccess` does not run.
   */
  lemma EditedTagNeverSavesAsWritten(t: Tag, form: TagForm, queryError: Option<string>)
    ensures var failure := CallError(TagsServiceDefines(OperationOf(SaveCall(Some(t), form))), queryError);
      failure.Some? && SaveOutcome(failure, true) == Some(SaveFailed(true))
  {
  }

  class TagFormState {
    var form: TagForm
    var isSubmitting: bool
    var error: Option<FormError>
    /** Calls made to the tags service. */
    var calls: seq<TagCall>
    /** How many times `onSuccess` ran. */
    var successes: nat

    constructor ()
      ensures form == DefaultForm && !isSubmitting && error == None && calls == [] && successes == 0
    {
      form := DefaultForm;
      isSubmitting := false;
      error := None;
      calls := [];
      successes := 0;
    }

    method ApplyPrefill(tag: Option<Tag>)
      modifies this`form
      ensures form == Prefill(tag)
    {
      form := Prefill(tag);
    }

    method ChangeName(value: string)
      modifies this`form
      ensures form == old(form).(name := value)
    {
      form := form.(name := value);
    }

    method ChangeColor(value: string)
      modifies this`form
      ensures form == old(form).(color := NormalizeColor(value))
    {
      form := form.(color := NormalizeColor(value));
    }

    method ChangeStatus(value: string)
      modifies this`form
      ensures form == old(form).(status := value)
    {
      form := form.(status := value);
    }

    /**
     * `handleSubmit`.  `failure` is the service's answer: `None` when the
     * save succeeded, else the code of the error it threw (`""` when none).
     */
    method Submit(tag: Option<Tag>, failure: Option<string>)
      modifies this`isSubmitting, this`error, this`calls, this`successes
      ensures ValidateForm(form).Some? ==>
        && error == ValidateForm(form) && calls == old(calls)
        && isSubmitting == old(isSubmitting) && successes == old(successes)
      ensures ValidateForm(form).None? ==>
        && !isSubmitting
        && calls == old(calls) + [SaveCall(tag, form)]
        && error == SaveOutcome(failure, tag.Some?)
        && successes == old(successes) + (if failure.None? then 1 else 0)
    {
      var invalid := ValidateForm(form);
      if invalid.Some? {
        error := invalid;
      } else {
        isSubmitting := true;
        error := None;
        calls := calls + [SaveCall(tag, form)];
        if failure.None? {
          successes := successes + 1;
        }
        error := SaveOutcome(failure, tag.Some?);
        isSubmitting := false;
      }
    }
  }
}
