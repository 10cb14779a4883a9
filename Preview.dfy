/**
 * The preview session's state: the value map keyed by field id, the error
 * map, the form on display and the submission flags; with the reducers that
 * write values and errors and seed the value map from the fields' defaults.
 */
module Preview {
  import opened Js
  import opened Schema

  /** `field.defaultValue || (field.type === 'checkbox' ? false : '')`. */
  function DefaultValueOf(f: Field): Value {
    if Truthy(f.defaultValue) then f.defaultValue
    else if f.ftype == Checkbox then Bool(false) else Str("")
  }

  /** The seed of one field: blank for a derived field when the preview
      blanks them, its default value otherwise. */
  function SeedValue(f: Field, blankDerived: bool): Value {
    if blankDerived && f.isDerived then Str("") else DefaultValueOf(f)
  }

  /** A seed keeps a truthy default as it is; otherwise a checkbox starts
      unticked and any other field empty, never `undefined`. */
  lemma DefaultValueShape(f: Field)
    ensures DefaultValueOf(f) != Missing
    ensures Truthy(DefaultValueOf(f)) <==> Truthy(f.defaultValue)
    ensures Truthy(f.defaultValue) ==> DefaultValueOf(f) == f.defaultValue
    ensures !Truthy(f.defaultValue) ==> (DefaultValueOf(f) == Bool(false) <==> f.ftype == Checkbox)
  {
  }

  /** The map `fields.forEach(f => initialData[f.id] = seed)` builds: a later
      field with the same id overwrites an earlier one. */
  function InitialData(fs: seq<Field>, blankDerived: bool): map<string, Value>
    decreases |fs|
  {
    if fs == [] then map[]
    else
      var f := fs[|fs| - 1];
      InitialData(fs[..|fs| - 1], blankDerived)[f.id := SeedValue(f, blankDerived)]
  }

  /** The seeded map has exactly the fields' ids as keys. */
  lemma {:induction false} InitialDataKeys(fs: seq<Field>, blankDerived: bool, k: string)
    ensures k in InitialData(fs, blankDerived) <==> exists i | 0 <= i < |fs| :: fs[i].id == k
  {
    if fs != [] {
      var init := fs[..|fs| - 1];
      InitialDataKeys(init, blankDerived, k);
      assert forall i | 0 <= i < |init| :: init[i] == fs[i];
    }
  }

  /** With distinct ids, every field is seeded with its own seed value. */
  lemma {:induction false} InitialDataValue(fs: seq<Field>, blankDerived: bool, i: nat)
    requires UniqueIds(fs) && i < |fs|
    ensures fs[i].id in InitialData(fs, blankDerived)
    ensures InitialData(fs, blankDerived)[fs[i].id] == SeedValue(fs[i], blankDerived)
  {
    var init := fs[..|fs| - 1];
    if i < |fs| - 1 {
      assert forall j | 0 <= j < |init| :: init[j] == fs[j];
      assert UniqueIds(init);
      InitialDataValue(init, blankDerived, i);
      assert fs[|fs| - 1].id != fs[i].id;
    }
  }

  /** The `forEach` loop that builds the seeded map. */
  method BuildInitialData(fields: seq<Field>, blankDerived: bool) returns (initialData: map<string, Value>)
    ensures initialData == InitialData(fields, blankDerived)
  {
    initialData := map[];
    for i := 0 to |fields|
      invariant initialData == InitialData(fields[..i], blankDerived)
    {
      assert fields[..i + 1][..i] == fields[..i];
      var field := fields[i];
      if blankDerived && field.isDerived {
        initialData := initialData[field.id := Str("")];
      } else {
        initialData := initialData[field.id := DefaultValueOf(field)];
      }
    }
    assert fields[..|fields|] == fields;
  }

  /** `error` as the reducer tests it: present and not the empty string. */
  predicate IsMessage(error: Option<string>) {
    error.Some? && error.value != ""
  }

  /** The fields of the form on display, when it has any (`form?.fields`). */
  function ShownFields(form: Option<FormPatch>): Option<seq<Field>> {
    if form.Some? then form.value.fields else None
  }

  class PreviewState {
    var formData: map<string, Value>
    var validationErrors: map<string, string>
    /** The form on display: `None` for null, and a form object whose
        `fields` key may be absent. */
    var currentForm: Option<FormPatch>
    var isSubmitting: bool
    var submitError: Option<string>

    constructor ()
      ensures formData == map[] && validationErrors == map[] && currentForm.None?
      ensures !isSubmitting && submitError.None?
    {
      formData := map[];
      validationErrors := map[];
      currentForm := None;
      isSubmitting := false;
      submitError := None;
    }

    /** `setFormData({ fieldId, value })`: one entry written, no other touched. */
    method SetFormData(fieldId: string, value: Value)
      modifies this
      ensures formData == old(formData)[fieldId := value]
      ensures forall k | k in old(formData) && k != fieldId :: k in formData && formData[k] == old(formData)[k]
      ensures validationErrors == old(validationErrors) && currentForm == old(currentForm)
      ensures isSubmitting == old(isSubmitting) && submitError == old(submitError)
    {
      formData := formData[fieldId := value];
    }

    /** `setFormDataBulk(values)`: the given values win over the held ones. */
    method SetFormDataBulk(values: map<string, Value>)
      modifies this
      ensures forall k :: k in formData <==> k in old(formData) || k in values
      ensures forall k | k in values :: formData[k] == values[k]
      ensures forall k | k in old(formData) && k !in values :: formData[k] == old(formData)[k]
      ensures validationErrors == old(validationErrors) && currentForm == old(currentForm)
      ensures isSubmitting == old(isSubmitting) && submitError == old(submitError)
    {
      formData := formData + values;
    }

    /** `setValidationError({ fieldId, error })`: store a message, or remove
        the entry when the message is empty or absent. */
    method SetValidationError(fieldId: string, error: Option<string>)
      modifies this
      ensures IsMessage(error) ==> validationErrors == old(validationErrors)[fieldId := error.value]
      ensures !IsMessage(error) ==> validationErrors == old(validationErrors) - {fieldId}
      ensures forall k | k != fieldId :: (k in validationErrors <==> k in old(validationErrors))
      ensures formData == old(formData) && currentForm == old(currentForm)
      ensures isSubmitting == old(isSubmitting) && submitError == old(submitError)
    {
      if error.Some? && error.value != "" {
        validationErrors := validationErrors[fieldId := error.value];
      } else {
        validationErrors := validationErrors - {fieldId};
      }
    }

    method SetValidationErrors(errors: map<string, string>)
      modifies this
      ensures validationErrors == errors && formData == old(formData) && currentForm == old(currentForm)
      ensures isSubmitting == old(isSubmitting) && submitError == old(submitError)
    {
      validationErrors := errors;
    }

    method ClearValidationErrors()
      modifies this
      ensures validationErrors == map[] && formData == old(formData) && currentForm == old(currentForm)
      ensures isSubmitting == old(isSubmitting) && submitError == old(submitError)
    {
      validationErrors := map[];
    }

    /** `setCurrentForm(form)`: show the form, seed the value map from its
        fields' defaults and clear the errors. */
    method SetCurrentForm(form: Option<FormPatch>)
      modifies this
      ensures currentForm == form && validationErrors == map[]
      ensures formData == if ShownFields(form).Some? then InitialData(ShownFields(form).value, false) else map[]
      ensures isSubmitting == old(isSubmitting) && submitError == old(submitError)
    {
      currentForm := form;
      var initialData := map[];
      if form.Some? && form.value.fields.Some? {
        initialData := BuildInitialData(form.value.fields.value, false);
      }
      formData := initialData;
      validationErrors := map[];
    }

    /** `resetFormData()`: re-seed the value map from the form on display
        (empty when there is none) and clear the errors. */
    method ResetFormData()
      modifies this
      ensures formData == if ShownFields(currentForm).Some? then InitialData(ShownFields(currentForm).value, false) else map[]
      ensures validationErrors == map[] && currentForm == old(currentForm)
      ensures isSubmitting == old(isSubmitting) && submitError == old(submitError)
    {
      if currentForm.Some? && currentForm.value.fields.Some? {
        formData := BuildInitialData(currentForm.value.fields.value, false);
      } else {
        formData := map[];
      }
      validationErrors := map[];
    }

    method SetSubmitting(submitting: bool)
      modifies this
      ensures isSubmitting == submitting && formData == old(formData)
      ensures validationErrors == old(validationErrors) && currentForm == old(currentForm)
      ensures submitError == old(submitError)
    {
      isSubmitting := submitting;
    }

    method SetSubmitError(e: Option<string>)
      modifies this
      ensures submitError == e && formData == old(formData)
      ensures validationErrors == old(validationErrors) && currentForm == old(currentForm)
      ensures isSubmitting == old(isSubmitting)
    {
      submitError := e;
    }

    method ClearSubmitError()
      modifies this
      ensures submitError.None? && formData == old(formData)
      ensures validationErrors == old(validationErrors) && currentForm == old(currentForm)
      ensures isSubmitting == old(isSubmitting)
    {
      submitError := None;
    }
  }
}
