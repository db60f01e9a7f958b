/**
 * The create/edit form (src/components/ItemForm.tsx): its data starts blank or
 * from the item being edited, the name is validated on its trimmed text, a
 * valid submission hands the data to the parent and waits for it, and each
 * field change updates that field alone.
 */
module ItemForm {
  import opened ItemTypes
  import opened JsText

  const RequiredMessage := "Name is required"
  const TooShortMessage := "Name must be at least 3 characters"
  /** The message shown when a failed submission carries none. */
  const SaveErrorFallback := "Error saving item"

  /** The form's data on first render and after each successful submission. */
  const BlankData := ItemFormData("", Some(Todo), Some(""))

  /** The field errors; only the name is ever checked. */
  datatype FormErrors = FormErrors(name: Option<string>)

  const NoErrors := FormErrors(None)

  /**
   * The check inside `validate`: a name that is all white space is missing,
   * one whose trimmed text has one or two characters is too short, and any
   * longer one passes.
   */
  function NameError(name: string): (r: Option<string>)
    ensures r == Some(RequiredMessage) <==> AllWhitespace(name)
    ensures r == Some(TooShortMessage) <==> 1 <= |Trim(name)| < 3
    ensures r == None <==> |Trim(name)| >= 3
  {
    var trimmed := Trim(name);
    if |trimmed| == 0 then Some(RequiredMessage)
    else if |trimmed| < 3 then Some(TooShortMessage)
    else None
  }

  /** White space around a name never changes whether or why it is rejected. */
  lemma NameErrorIgnoresPadding(pre: string, name: string, post: string)
    requires AllWhitespace(pre) && AllWhitespace(post)
    ensures NameError(pre + name + post) == NameError(name)
  {
    TrimIgnoresPadding(pre, name, post);
  }

  /** The empty name is missing. */
  lemma EmptyNameRequired()
    ensures NameError("") == Some(RequiredMessage)
  {
  }

  /** A two-letter name is too short. */
  lemma TwoLetterNameTooShort()
    ensures NameError("ab") == Some(TooShortMessage)
  {
    TrimOfUnpadded("ab");
  }

  /** A name of several words passes, its inner space kept. */
  lemma WordsNameAccepted()
    ensures NameError("Teste Item") == None
  {
    TrimOfUnpadded("Teste Item");
  }

  /**
   * The data the form shows for `item`: blank for a new item; for an edit, the
   * item's name and status, and its description or the empty string.
   */
  function DataFor(item: Option<Item>): (d: ItemFormData)
    ensures item.None? ==> d == BlankData
    ensures item.Some? ==> d.name == item.value.name && d.status == Some(item.value.status)
    ensures item.Some? && item.value.description.Some? ==> d.description == item.value.description
    ensures item.Some? && item.value.description.None? ==> d.description == Some("")
  {
    match item
    case None => BlankData
    case Some(it) => ItemFormData(it.name, Some(it.status), Some(it.description.GetOr("")))
  }

  /** A change event from one of the three inputs, with its new value. */
  datatype Change = NameChange(name: string) | StatusChange(status: ItemStatus) | DescriptionChange(text: string)

  /** One mounted form. */
  class Form {
    var formData: ItemFormData
    var errors: FormErrors
    var loading: bool
    var submitError: Option<string>

    /** Mounting: blank state, then the effect that copies in the edited item. */
    constructor (item: Option<Item>)
      ensures formData == DataFor(item) && errors == NoErrors && !loading && submitError == None
    {
      formData := BlankData;
      errors := NoErrors;
      loading := false;
      submitError := None;
      if item.Some? {
        formData := DataFor(item);
      }
    }

    /** The effect re-run when the `item` prop changes: a new item is copied in, none keeps the data. */
    method ItemPropChanged(item: Option<Item>)
      modifies this
      ensures item.Some? ==> formData == DataFor(item)
      ensures item.None? ==> formData == old(formData)
      ensures errors == old(errors) && loading == old(loading) && submitError == old(submitError)
    {
      if item.Some? {
        formData := DataFor(item);
      }
    }

    /**
     * `handleSubmit` up to its await. The previous submission error is cleared
     * and the name validated, its error recorded. On a failed validation the
     * parent is not called and nothing else changes; otherwise the form is
     * loading and `submitted` holds exactly the data handed to `onSubmit`.
     */
    method BeginSubmit() returns (submitted: Option<ItemFormData>)
      modifies this
      ensures submitError == None
      ensures errors == FormErrors(NameError(old(formData).name))
      ensures submitted.Some? <==> NameError(old(formData).name).None?
      ensures submitted.Some? ==> submitted.value == old(formData) && loading
      ensures submitted.None? ==> loading == old(loading)
      ensures formData == old(formData)
    {
      submitError := None;
      var newErrors := FormErrors(NameError(formData.name));
      errors := newErrors;
      if newErrors.name.Some? {
        return None;
      }
      loading := true;
      submitted := Some(formData);
    }

    /**
     * The rest of `handleSubmit`, once `onSubmit` has settled with `result`.
     * On success the form is reset to blank with no errors; on failure the data
     * is kept and the error's message (or the fallback) is shown. Loading ends
     * on both paths.
     */
    method FinishSubmit(result: Outcome<()>)
      requires loading
      modifies this
      ensures !loading
      ensures result.Success? ==> formData == BlankData && errors == NoErrors && submitError == old(submitError)
      ensures result.Failure? ==>
        && formData == old(formData) && errors == old(errors)
        && submitError == Some(ErrorText(result.message, SaveErrorFallback))
    {
      match result {
        case Success(_) =>
          formData := BlankData;
          errors := NoErrors;
        case Failure(message) =>
          submitError := Some(ErrorText(message, SaveErrorFallback));
      }
      loading := false;
    }

    /**
     * `handleChange`: the named field takes the new value and no other field
     * changes. A name change clears a (non-empty) name error; the other fields
     * have no error to clear.
     */
    method Change(c: Change)
      modifies this
      ensures c.NameChange? ==> formData == old(formData).(name := c.name)
      ensures c.StatusChange? ==> formData == old(formData).(status := Some(c.status))
      ensures c.DescriptionChange? ==> formData == old(formData).(description := Some(c.text))
      ensures c.NameChange? && old(errors).name.Some? && old(errors).name.value != "" ==> errors == NoErrors
      ensures !(c.NameChange? && old(errors).name.Some? && old(errors).name.value != "") ==> errors == old(errors)
      ensures loading == old(loading) && submitError == old(submitError)
    {
      match c {
        case NameChange(name) =>
          formData := formData.(name := name);
          if errors.name.Some? && errors.name.value != "" {
            errors := errors.(name := None);
          }
        case StatusChange(status) =>
          formData := formData.(status := Some(status));
        case DescriptionChange(text) =>
          formData := formData.(description := Some(text));
      }
    }
  }
}
