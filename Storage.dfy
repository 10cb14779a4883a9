/**
 * The saved-forms list kept in the browser's storage under the key "forms".
 * The storage slot is an in-memory value: absent, holding text that does
 * not parse, or holding a list of forms. Ids and timestamps are parameters.
 */
module Storage {
  import opened Js
  import opened Schema
  import opened Keyed

  /** What `localStorage.getItem('forms')` followed by `JSON.parse` yields. */
  datatype Slot = Absent | Unparsable | Stored(forms: seq<Form>)

  function FormId(f: Form): string {
    f.id
  }

  /** `getAllForms()`: the stored list, or the empty list when nothing is
      stored or the stored text does not parse. */
  function Listed(slot: Slot): (r: seq<Form>)
    ensures slot.Stored? ==> r == slot.forms
    ensures !slot.Stored? ==> r == []
  {
    if slot.Stored? then slot.forms else []
  }

  /** The form `saveForm(draft)` appends: the draft plus its id and creation time. */
  function NewForm(draft: Draft, id: string, now: string): (f: Form)
    ensures f.id == id && f.createdAt == now && f.updatedAt.None?
    ensures f.name == draft.name && f.fields == draft.fields
  {
    Form(id, draft.name, draft.fields, now, None)
  }

  /** `find` after appending a form whose id no earlier form carries returns
      that form. */
  lemma FindAppended(forms: seq<Form>, f: Form)
    requires forall g | g in forms :: g.id != f.id
    ensures Find(forms + [f], FormId, f.id) == Some(f)
  {
    var all := forms + [f];
    assert forall j | 0 <= j < |forms| :: all[j] == forms[j] && forms[j] in forms;
    assert FormId(all[|forms|]) == f.id;
  }

  class FormStorage {
    var slot: Slot

    constructor ()
      ensures slot == Absent
    {
      slot := Absent;
    }

    function Contents(): seq<Form>
      reads this
    {
      Listed(slot)
    }

    /** `getAllForms()`. */
    method GetAllForms() returns (forms: seq<Form>)
      ensures forms == Contents()
    {
      forms := Listed(slot);
    }

    /** `saveForm(draft)`: append the new form, write the list back and
        return the new form. */
    method SaveForm(draft: Draft, id: string, now: string) returns (newForm: Form)
      modifies this
      ensures newForm == NewForm(draft, id, now)
      ensures slot == Stored(old(Contents()) + [newForm])
      ensures |Contents()| == |old(Contents())| + 1 && Contents()[..|old(Contents())|] == old(Contents())
      ensures (forall g | g in old(Contents()) :: g.id != id) ==> Find(Contents(), FormId, id) == Some(newForm)
    {
      var forms := GetAllForms();
      newForm := NewForm(draft, id, now);
      forms := forms + [newForm];
      slot := Stored(forms);
      if forall g | g in old(Contents()) :: g.id != id {
        FindAppended(old(Contents()), newForm);
      }
    }

    /** `updateForm(formId, patch)`: merge into the first matching form, stamp
        it, write the list back and return it; an absent id returns null and
        writes nothing. */
    method UpdateForm(formId: string, patch: FormPatch, now: string) returns (updated: Option<Form>)
      modifies this
      ensures var i := IndexOf(old(Contents()), FormId, formId);
        if i == -1 then updated.None? && slot == old(slot)
        else
          var f := MergeForm(old(Contents())[i], patch).(updatedAt := Some(now));
          updated == Some(f) && slot == Stored(old(Contents())[i := f])
    {
      var forms := GetAllForms();
      var formIndex := IndexOf(forms, FormId, formId);
      if formIndex != -1 {
        forms := forms[formIndex := MergeForm(forms[formIndex], patch).(updatedAt := Some(now))];
        slot := Stored(forms);
        updated := Some(forms[formIndex]);
      } else {
        updated := None;
      }
    }

    /** `deleteForm(formId)`: write back the list without that id. */
    method DeleteForm(formId: string)
      modifies this
      ensures slot == Stored(Without(old(Contents()), FormId, formId))
      ensures forall f :: f in Contents() <==> f in old(Contents()) && f.id != formId
      ensures (forall f | f in old(Contents()) :: f.id != formId) ==> Contents() == old(Contents())
    {
      var forms := GetAllForms();
      var filtered := Without(forms, FormId, formId);
      slot := Stored(filtered);
      assert forall j | 0 <= j < |forms| :: forms[j] in forms;
    }

    /** `getFormById(formId)`: the first form with that id, if any. */
    method GetFormById(formId: string) returns (form: Option<Form>)
      ensures form.Some? <==> exists f :: f in Contents() && f.id == formId
      ensures form.Some? ==> form.value in Contents() && form.value.id == formId
      ensures form == Find(Contents(), FormId, formId)
    {
      var forms := GetAllForms();
      form := Find(forms, FormId, formId);
      if form.Some? {
        var i := IndexOf(forms, FormId, formId);
        assert forms[i] in forms;
      }
      assert forall j | 0 <= j < |forms| :: forms[j] in forms;
    }
  }
}
