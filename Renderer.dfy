/**
 * The preview session as the form renderer drives it over the preview
 * state: seeding the value map when a form is shown, keeping derived
 * values current, clearing a field's error when the user edits it, and the
 * submit sequence. The clock reading `today` and the submit handler's
 * outcome are parameters; the one-second delay and React's scheduling are
 * not part of this model.
 */
module Renderer {
  import opened Js
  import opened Schema
  import opened Validation
  import opened Derived
  import opened Preview

  /** What the caller's `onSubmit` does when awaited: there is none, it
      resolves, or it throws an error carrying a message. */
  datatype Handler = NoHandler | Resolves | Throws(message: string)

  /** The banner the renderer shows after a submit attempt. */
  datatype Notice = Notice(text: string, isError: bool)

  const FixErrorsText: string := "Please fix the validation errors below"
  const SubmittedText: string := "Form submitted successfully!"
  const FailedText: string := "An error occurred while submitting the form"

  /** `Object.entries(data).forEach(([fieldId, value]) => dispatch(setFormData(...)))`. */
  method WriteEntries(store: PreviewState, entries: map<string, Value>)
    modifies store
    ensures store.formData == old(store.formData) + entries
    ensures store.validationErrors == old(store.validationErrors) && store.currentForm == old(store.currentForm)
    ensures store.isSubmitting == old(store.isSubmitting) && store.submitError == old(store.submitError)
  {
    var remaining := entries.Keys;
    while remaining != {}
      invariant remaining <= entries.Keys
      invariant forall k :: k in store.formData <==> k in old(store.formData) || (k in entries && k !in remaining)
      invariant forall k | k in entries && k !in remaining :: store.formData[k] == entries[k]
      invariant forall k | k in old(store.formData) && (k !in entries || k in remaining) :: store.formData[k] == old(store.formData)[k]
      invariant store.validationErrors == old(store.validationErrors) && store.currentForm == old(store.currentForm)
      invariant store.isSubmitting == old(store.isSubmitting) && store.submitError == old(store.submitError)
      decreases remaining
    {
      var fieldId :| fieldId in remaining;
      store.SetFormData(fieldId, entries[fieldId]);
      remaining := remaining - {fieldId};
    }
  }

  /** The first effect: when a form with fields is shown, seed every field
      (derived ones blank), run the derived-field pass once and write every
      resulting entry into the held value map. */
  method SeedForm(store: PreviewState, form: Option<FormPatch>, today: CivilDate)
    modifies store
    ensures ShownFields(form).Some? ==>
      var fs := ShownFields(form).value;
      store.formData == old(store.formData) + Recompute(InitialData(fs, true), fs, today).0
    ensures ShownFields(form).None? ==> store.formData == old(store.formData)
    ensures store.validationErrors == old(store.validationErrors) && store.currentForm == old(store.currentForm)
    ensures store.isSubmitting == old(store.isSubmitting) && store.submitError == old(store.submitError)
  {
    if form.Some? && form.value.fields.Some? {
      var fields := form.value.fields.value;
      var initialData := BuildInitialData(fields, true);
      var updatedData, _ := UpdateDerivedFields(initialData, fields, today);
      WriteEntries(store, updatedData);
    }
  }

  /** With distinct ids, seeding leaves every field of the form holding its
      default (derived fields: their value computed from the seeded map). */
  lemma SeededValues(fs: seq<Field>, today: CivilDate, i: nat)
    requires UniqueIds(fs) && i < |fs|
    ensures var m := Recompute(InitialData(fs, true), fs, today).0;
      fs[i].id in m
      && m[fs[i].id] == if fs[i].isDerived then Str(DerivedValue(fs[i], InitialData(fs, true), today)) else DefaultValueOf(fs[i])
  {
    var data := InitialData(fs, true);
    InitialDataValue(fs, true, i);
    if fs[i].isDerived {
      RecomputeSetsDerived(data, fs, today, i);
    } else {
      RecomputeKeepsOthers(data, fs, today, fs[i].id);
    }
  }

  /** The second effect: when a form with fields is shown and the value map
      is not empty, run the derived-field pass and, if it reports a change,
      write each entry that differs from the held one. The held map becomes
      the pass's output. */
  method RecomputeEffect(store: PreviewState, form: Option<FormPatch>, today: CivilDate)
    modifies store
    ensures ShownFields(form).Some? && |old(store.formData)| > 0 ==>
      store.formData == Recompute(old(store.formData), ShownFields(form).value, today).0
    ensures ShownFields(form).None? || |old(store.formData)| == 0 ==> store.formData == old(store.formData)
    ensures store.validationErrors == old(store.validationErrors) && store.currentForm == old(store.currentForm)
    ensures store.isSubmitting == old(store.isSubmitting) && store.submitError == old(store.submitError)
  {
    if form.Some? && form.value.fields.Some? && |store.formData| > 0 {
      var fields := form.value.fields.value;
      var formData := store.formData;
      var updatedData, hasChanges := UpdateDerivedFields(formData, fields, today);
      RecomputeUnchanged(formData, fields, today);
      if hasChanges {
        WriteChanged(store, formData, updatedData, fields, today);
      }
    }
  }

  /** The loop of the second effect: write the entries of `updated` that
      differ strictly from the snapshot `formData` the effect started from. */
  method WriteChanged(store: PreviewState, formData: map<string, Value>, updated: map<string, Value>,
                      ghost fields: seq<Field>, ghost today: CivilDate)
    requires store.formData == formData && updated == Recompute(formData, fields, today).0
    modifies store
    ensures store.formData == updated
    ensures store.validationErrors == old(store.validationErrors) && store.currentForm == old(store.currentForm)
    ensures store.isSubmitting == old(store.isSubmitting) && store.submitError == old(store.submitError)
  {
    var remaining := updated.Keys;
    while remaining != {}
      invariant remaining <= updated.Keys
      invariant forall k :: k in store.formData <==> k in formData || (k in updated && k !in remaining && Lookup(formData, k) != updated[k])
      invariant forall k | k in updated && k !in remaining && Lookup(formData, k) != updated[k] :: store.formData[k] == updated[k]
      invariant forall k | k in formData && !(k in updated && k !in remaining && Lookup(formData, k) != updated[k]) :: store.formData[k] == formData[k]
      invariant store.validationErrors == old(store.validationErrors) && store.currentForm == old(store.currentForm)
      invariant store.isSubmitting == old(store.isSubmitting) && store.submitError == old(store.submitError)
      decreases remaining
    {
      var fieldId :| fieldId in remaining;
      if Lookup(formData, fieldId) != updated[fieldId] {
        store.SetFormData(fieldId, updated[fieldId]);
      }
      remaining := remaining - {fieldId};
    }
    forall k ensures (k in store.formData <==> k in updated) && (k in updated ==> store.formData[k] == updated[k]) {
      RecomputeExtends(formData, fields, today, k);
    }
  }

  /** `handleFieldChange(fieldId, value)`: write the value and, when the
      field shows a non-empty error, remove that entry. */
  method HandleFieldChange(store: PreviewState, fieldId: string, value: Value)
    modifies store
    ensures store.formData == old(store.formData)[fieldId := value]
    ensures store.validationErrors ==
      if fieldId in old(store.validationErrors) && old(store.validationErrors)[fieldId] != ""
      then old(store.validationErrors) - {fieldId} else old(store.validationErrors)
    ensures GetFieldError(fieldId, store.validationErrors).None?
    ensures forall k | k != fieldId :: GetFieldError(k, store.validationErrors) == GetFieldError(k, old(store.validationErrors))
    ensures store.currentForm == old(store.currentForm)
    ensures store.isSubmitting == old(store.isSubmitting) && store.submitError == old(store.submitError)
  {
    var validationErrors := store.validationErrors;
    store.SetFormData(fieldId, value);
    if fieldId in validationErrors && validationErrors[fieldId] != "" {
      var newErrors := validationErrors - {fieldId};
      store.SetValidationErrors(newErrors);
    }
  }

  /** `handleSubmit`: without a form with fields nothing happens. Otherwise
      validate the held values; with errors, show them and stop; without,
      clear the errors and hand the values to the handler. The submitting
      flag is down again at the end. */
  method HandleSubmit(store: PreviewState, form: Option<FormPatch>, onSubmit: Handler)
    returns (submitted: Option<map<string, Value>>, notice: Option<Notice>)
    modifies store
    ensures ShownFields(form).None? ==>
      submitted.None? && notice.None? && store.validationErrors == old(store.validationErrors)
      && store.isSubmitting == old(store.isSubmitting)
    ensures ShownFields(form).Some? ==>
      var errors := FormErrors(old(store.formData), ShownFields(form).value);
      && !store.isSubmitting
      && (|errors| > 0 ==>
            store.validationErrors == errors && submitted.None? && notice == Some(Notice(FixErrorsText, true)))
      && (|errors| == 0 ==>
            && store.validationErrors == map[]
            && submitted == (if onSubmit.NoHandler? then None else Some(old(store.formData)))
            && notice == Some(match onSubmit
                              case Throws(m) => Notice(if m != "" then m else FailedText, true)
                              case _ => Notice(SubmittedText, false)))
    ensures submitted.Some? ==>
      && ShownFields(form).Some?
      && forall i | 0 <= i < |ShownFields(form).value| && !ShownFields(form).value[i].isDerived ::
           FieldMessages(Lookup(submitted.value, ShownFields(form).value[i].id), ShownFields(form).value[i]) == []
    ensures store.formData == old(store.formData) && store.currentForm == old(store.currentForm)
    ensures store.submitError == old(store.submitError)
  {
    submitted := None;
    notice := None;
    if form.None? || form.value.fields.None? {
      return;
    }
    var fields := form.value.fields.value;
    store.SetSubmitting(true);
    var errors := ValidateForm(store.formData, fields);
    if |errors| > 0 {
      store.SetValidationErrors(errors);
      notice := Some(Notice(FixErrorsText, true));
    } else {
      store.ClearValidationErrors();
      match onSubmit {
        case NoHandler =>
          notice := Some(Notice(SubmittedText, false));
        case Resolves =>
          submitted := Some(store.formData);
          notice := Some(Notice(SubmittedText, false));
        case Throws(m) =>
          submitted := Some(store.formData);
          notice := Some(Notice(if m != "" then m else FailedText, true));
      }
      forall i | 0 <= i < |fields| && !fields[i].isDerived
        ensures FieldMessages(Lookup(store.formData, fields[i].id), fields[i]) == []
      {
        FormErrorsDomain(store.formData, fields, fields[i].id);
      }
    }
    store.SetSubmitting(false);
  }

  /** On a freshly shown form, a required field that is not derived and has
      no truthy default blocks submission with its required message. */
  lemma FreshFormBlocksRequired(fs: seq<Field>, i: nat)
    requires UniqueIds(fs) && i < |fs|
    requires fs[i].required && !fs[i].isDerived && !Truthy(fs[i].defaultValue)
    ensures var errors := FormErrors(InitialData(fs, false), fs);
      fs[i].id in errors && errors[fs[i].id] == RequiredMessage(fs[i].labelText)
  {
    var data := InitialData(fs, false);
    InitialDataValue(fs, false, i);
    var v := Lookup(data, fs[i].id);
    assert v == Bool(false) || v == Str("");
    assert AllSpace("");
    BlankValueMessages(v, fs[i]);
    FormErrorsPerField(data, fs, i);
  }
}
