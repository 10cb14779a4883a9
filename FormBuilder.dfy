/**
 * The form builder's state: the ordered field list being designed, the form
 * name, the field open in the configuration dialog, and the loading and
 * error flags; with the reducers that add, update, delete, reorder and move
 * fields, save the form to storage, load a form for editing and clear it.
 */
module FormBuilder {
  import opened Js
  import opened Schema
  import opened Keyed
  import opened Storage

  /** The field `addField(payload)` appends: defaults for a field of the
      payload's type, overridden by every key the payload carries. */
  function NewField(id: string, payload: FieldPatch): (f: Field)
    requires payload.ftype.Some?
    ensures f.ftype == payload.ftype.value
    ensures f.id == payload.id.GetOr(id)
    ensures f.labelText == payload.labelText.GetOr(TypeName(payload.ftype.value) + " Field")
    ensures f.required == payload.required.GetOr(false)
    ensures f.defaultValue == payload.defaultValue.GetOr(Str(""))
    ensures f.validation == payload.validation.GetOr(NoRules)
    ensures f.isDerived == payload.isDerived.GetOr(false)
    ensures f.derivedConfig == payload.derivedConfig.GetOr(None)
    ensures f.options == payload.options.GetOr([])
  {
    var t := payload.ftype.value;
    Merge(Field(id, t, TypeName(t) + " Field", false, Str(""), NoRules, false, None, []), payload)
  }

  /** `moveFieldDown` as written, on a list whose slots may hold `undefined`
      (`None`): `findIndex` gives -1 for an absent id, `-1 < length - 1`
      holds for any non-empty list, `fields[-1]` is `undefined`, and
      `splice(-1, 1)` removes the LAST field. */
  function MoveDownAsWritten(fields: seq<Field>, fieldId: string): seq<Option<Field>> {
    var slots := seq(|fields|, k requires 0 <= k < |fields| => Some(fields[k]));
    var i := IndexOf(fields, FieldId, fieldId);
    if i < |fields| - 1 then
      var field := if 0 <= i then slots[i] else None;
      Splice(Splice(slots, i, 1, []), i + 1, 0, [field])
    else slots
  }

  /** With an id no field carries, the as-written reducer drops the last of
      two fields and puts `undefined` first. */
  lemma MoveDownAbsentIdLosesField(a: Field, b: Field, fieldId: string)
    requires a.id != fieldId && b.id != fieldId
    ensures MoveDownAsWritten([a, b], fieldId) == [None, Some(a)]
  {
    var fields := [a, b];
    assert IndexOf(fields, FieldId, fieldId) == -1;
    var slots := seq(|fields|, k requires 0 <= k < |fields| => Some(fields[k]));
    assert slots == [Some(a), Some(b)];
    assert Splice(slots, -1, 1, []) == [Some(a)];
  }

  /** The list `moveFieldUp(id)` builds by splicing: the field swapped with
      the one before it; the first field and an absent id leave it as it was. */
  method MovedUp(list: seq<Field>, fieldId: string) returns (r: seq<Field>)
    ensures var i := IndexOf(list, FieldId, fieldId);
      r == if i > 0 then list[i - 1 := list[i]][i := list[i - 1]] else list
    ensures multiset(r) == multiset(list)
  {
    r := list;
    var fieldIndex := IndexOf(list, FieldId, fieldId);
    if fieldIndex > 0 {
      var field := r[fieldIndex];
      r := Splice(r, fieldIndex, 1, []);
      r := Splice(r, fieldIndex - 1, 0, [field]);
      MovedAdjacent(list, fieldIndex - 1);
      MovedPermutes(list, fieldIndex, fieldIndex - 1);
    }
  }

  /** The list `moveFieldDown(id)` builds, with the presence check its guard
      leaves out: the field swapped with the one after it; the last field and
      an absent id leave it as it was. */
  method MovedDown(list: seq<Field>, fieldId: string) returns (r: seq<Field>)
    ensures var i := IndexOf(list, FieldId, fieldId);
      r == if 0 <= i < |list| - 1 then list[i := list[i + 1]][i + 1 := list[i]] else list
    ensures multiset(r) == multiset(list)
  {
    r := list;
    var fieldIndex := IndexOf(list, FieldId, fieldId);
    if fieldIndex != -1 && fieldIndex < |list| - 1 {
      var field := r[fieldIndex];
      r := Splice(r, fieldIndex, 1, []);
      r := Splice(r, fieldIndex + 1, 0, [field]);
      MovedAdjacent(list, fieldIndex);
      MovedPermutes(list, fieldIndex, fieldIndex + 1);
    }
  }

  class FormBuilderState {
    var fields: seq<Field>
    var formName: string
    var currentEditingField: Option<Field>
    var draggedFieldId: Option<string>
    var isLoading: bool
    var error: Option<string>

    constructor ()
      ensures fields == [] && formName == "" && currentEditingField.None?
      ensures draggedFieldId.None? && !isLoading && error.None?
    {
      fields := [];
      formName := "";
      currentEditingField := None;
      draggedFieldId := None;
      isLoading := false;
      error := None;
    }

    /** Everything except the field list is as it was. */
    twostate predicate OnlyFieldsChanged()
      reads this
    {
      formName == old(formName) && currentEditingField == old(currentEditingField)
      && draggedFieldId == old(draggedFieldId) && isLoading == old(isLoading) && error == old(error)
    }

    /** `addField(payload)`: append exactly one new field. */
    method AddField(id: string, payload: FieldPatch)
      requires payload.ftype.Some?
      modifies this
      ensures fields == old(fields) + [NewField(id, payload)]
      ensures OnlyFieldsChanged()
    {
      var newField := NewField(id, payload);
      fields := fields + [newField];
    }

    /** `updateField(id, updates)`: spread the updates over the first field
        with that id; an absent id changes nothing. */
    method UpdateField(id: string, updates: FieldPatch)
      modifies this
      ensures var i := IndexOf(old(fields), FieldId, id);
        fields == if i == -1 then old(fields) else old(fields)[i := Merge(old(fields)[i], updates)]
      ensures |fields| == |old(fields)|
      ensures forall j | 0 <= j < |fields| && old(fields)[j].id != id :: fields[j] == old(fields)[j]
      ensures OnlyFieldsChanged()
    {
      var fieldIndex := IndexOf(fields, FieldId, id);
      if fieldIndex != -1 {
        fields := fields[fieldIndex := Merge(fields[fieldIndex], updates)];
      }
    }

    /** `deleteField(id)`: keep the fields with another id, in order. */
    method DeleteField(id: string)
      modifies this
      ensures fields == Without(old(fields), FieldId, id)
      ensures forall f :: f in fields <==> f in old(fields) && f.id != id
      ensures IsSubsequence(fields, old(fields))
      ensures OnlyFieldsChanged()
    {
      fields := Without(fields, FieldId, id);
    }

    /** `reorderFields(dragIndex, dropIndex)`: take the dragged field out and
        insert it at the drop index. */
    method ReorderFields(dragIndex: int, dropIndex: int)
      requires 0 <= dragIndex < |fields| && 0 <= dropIndex < |fields|
      modifies this
      ensures fields == Moved(old(fields), dragIndex, dropIndex)
      ensures |fields| == |old(fields)| && fields[dropIndex] == old(fields)[dragIndex]
      ensures multiset(fields) == multiset(old(fields))
      ensures OnlyFieldsChanged()
    {
      var list := fields;
      var draggedField := list[dragIndex];
      list := Splice(list, dragIndex, 1, []);
      list := Splice(list, dropIndex, 0, [draggedField]);
      MovedPermutes(fields, dragIndex, dropIndex);
      fields := list;
    }

    /** `moveFieldUp(id)`: swap the field with the one before it; the first
        field and an absent id change nothing. */
    method MoveFieldUp(fieldId: string)
      modifies this
      ensures var i := IndexOf(old(fields), FieldId, fieldId);
        fields == if i > 0 then old(fields)[i - 1 := old(fields)[i]][i := old(fields)[i - 1]] else old(fields)
      ensures multiset(fields) == multiset(old(fields))
      ensures OnlyFieldsChanged()
    {
      fields := MovedUp(fields, fieldId);
    }

    /** `moveFieldDown(id)` with the presence check its guard leaves out:
        swap a present field with the one after it; the last field and an
        absent id change nothing. */
    method MoveFieldDown(fieldId: string)
      modifies this
      ensures var i := IndexOf(old(fields), FieldId, fieldId);
        fields == if 0 <= i < |old(fields)| - 1 then old(fields)[i := old(fields)[i + 1]][i + 1 := old(fields)[i]] else old(fields)
      ensures multiset(fields) == multiset(old(fields))
      ensures OnlyFieldsChanged()
    {
      fields := MovedDown(fields, fieldId);
    }

    method SetCurrentEditingField(field: Option<Field>)
      modifies this
      ensures currentEditingField == field && fields == old(fields) && formName == old(formName)
      ensures draggedFieldId == old(draggedFieldId) && isLoading == old(isLoading) && error == old(error)
    {
      currentEditingField := field;
    }

    method SetFormName(name: string)
      modifies this
      ensures formName == name && fields == old(fields) && currentEditingField == old(currentEditingField)
      ensures draggedFieldId == old(draggedFieldId) && isLoading == old(isLoading) && error == old(error)
    {
      formName := name;
    }

    /** `saveForm()`: with a non-empty name and at least one field, append
        the form to storage and reset the builder; otherwise do nothing. */
    method SaveForm(storage: FormStorage, id: string, now: string)
      modifies this, storage
      ensures old(formName) != "" && |old(fields)| > 0 ==>
        && storage.slot == Stored(old(storage.Contents()) + [NewForm(Draft(old(formName), old(fields)), id, now)])
        && fields == [] && formName == "" && currentEditingField.None? && error.None?
        && !isLoading && draggedFieldId == old(draggedFieldId)
      ensures !(old(formName) != "" && |old(fields)| > 0) ==>
        && storage.slot == old(storage.slot) && fields == old(fields) && formName == old(formName)
        && currentEditingField == old(currentEditingField) && draggedFieldId == old(draggedFieldId)
        && isLoading == old(isLoading) && error == old(error)
    {
      if formName != "" && |fields| > 0 {
        isLoading := true;
        var formSchema := Draft(formName, fields);
        var _ := storage.SaveForm(formSchema, id, now);
        fields := [];
        formName := "";
        currentEditingField := None;
        error := None;
        isLoading := false;
      }
    }

    /** `loadFormForEditing(form)`: take the form's fields and name, `[]`
        and `''` for a key it lacks. */
    method LoadFormForEditing(form: FormPatch)
      modifies this
      ensures fields == form.fields.GetOr([]) && formName == form.name.GetOr("")
      ensures currentEditingField == old(currentEditingField) && draggedFieldId == old(draggedFieldId)
      ensures isLoading == old(isLoading) && error == old(error)
    {
      fields := form.fields.GetOr([]);
      formName := form.name.GetOr("");
    }

    /** `clearForm()`. */
    method ClearForm()
      modifies this
      ensures fields == [] && formName == "" && currentEditingField.None? && error.None?
      ensures draggedFieldId == old(draggedFieldId) && isLoading == old(isLoading)
    {
      fields := [];
      formName := "";
      currentEditingField := None;
      error := None;
    }

    method SetError(e: Option<string>)
      modifies this
      ensures error == e && fields == old(fields) && formName == old(formName)
      ensures currentEditingField == old(currentEditingField) && draggedFieldId == old(draggedFieldId)
      ensures isLoading == old(isLoading)
    {
      error := e;
    }

    method ClearError()
      modifies this
      ensures error.None? && fields == old(fields) && formName == old(formName)
      ensures currentEditingField == old(currentEditingField) && draggedFieldId == old(draggedFieldId)
      ensures isLoading == old(isLoading)
    {
      error := None;
    }
  }
}
