/**
 * The saved-forms screen's state: the list of saved forms, the loading and
 * error flags and the selected form's id; with the reducers that replace,
 * append, update and delete forms and reload the list from storage.
 */
module MyForms {
  import opened Js
  import opened Schema
  import opened Keyed
  import opened Storage

  class MyFormsState {
    var forms: seq<Form>
    var isLoading: bool
    var error: Option<string>
    var selectedFormId: Option<string>

    constructor ()
      ensures forms == [] && !isLoading && error.None? && selectedFormId.None?
    {
      forms := [];
      isLoading := false;
      error := None;
      selectedFormId := None;
    }

    method SetLoading(loading: bool)
      modifies this
      ensures isLoading == loading && forms == old(forms)
      ensures error == old(error) && selectedFormId == old(selectedFormId)
    {
      isLoading := loading;
    }

    method SetForms(list: seq<Form>)
      modifies this
      ensures forms == list && isLoading == old(isLoading)
      ensures error == old(error) && selectedFormId == old(selectedFormId)
    {
      forms := list;
    }

    /** `addForm(form)`: append it. */
    method AddForm(form: Form)
      modifies this
      ensures forms == old(forms) + [form] && isLoading == old(isLoading)
      ensures error == old(error) && selectedFormId == old(selectedFormId)
    {
      forms := forms + [form];
    }

    /** `updateForm({ id, updates })`: spread the updates over the first form
        with that id; an absent id changes nothing. */
    method UpdateForm(id: string, updates: FormPatch)
      modifies this
      ensures var i := IndexOf(old(forms), FormId, id);
        forms == if i == -1 then old(forms) else old(forms)[i := MergeForm(old(forms)[i], updates)]
      ensures |forms| == |old(forms)|
      ensures forall j | 0 <= j < |forms| && old(forms)[j].id != id :: forms[j] == old(forms)[j]
      ensures isLoading == old(isLoading) && error == old(error) && selectedFormId == old(selectedFormId)
    {
      var formIndex := IndexOf(forms, FormId, id);
      if formIndex != -1 {
        forms := forms[formIndex := MergeForm(forms[formIndex], updates)];
      }
    }

    /** `deleteForm(formId)`: delete it from storage and from the list, and
        drop the selection when it was that form. A list that mirrored
        storage still mirrors it. */
    method DeleteForm(formId: string, storage: FormStorage)
      modifies this, storage
      ensures storage.slot == Stored(Without(old(storage.Contents()), FormId, formId))
      ensures forms == Without(old(forms), FormId, formId)
      ensures forall f :: f in forms <==> f in old(forms) && f.id != formId
      ensures selectedFormId == if old(selectedFormId) == Some(formId) then None else old(selectedFormId)
      ensures old(forms) == old(storage.Contents()) ==> forms == storage.Contents()
      ensures isLoading == old(isLoading) && error == old(error)
    {
      storage.DeleteForm(formId);
      forms := Without(forms, FormId, formId);
      if selectedFormId == Some(formId) {
        selectedFormId := None;
      }
    }

    /** `loadForms()`: the list becomes what storage holds. */
    method LoadForms(storage: FormStorage)
      modifies this
      ensures forms == storage.Contents()
      ensures !isLoading && error.None? && selectedFormId == old(selectedFormId)
    {
      isLoading := true;
      forms := storage.GetAllForms();
      error := None;
      isLoading := false;
    }

    method SetSelectedForm(id: Option<string>)
      modifies this
      ensures selectedFormId == id && forms == old(forms)
      ensures isLoading == old(isLoading) && error == old(error)
    {
      selectedFormId := id;
    }

    method SetError(e: Option<string>)
      modifies this
      ensures error == e && forms == old(forms)
      ensures isLoading == old(isLoading) && selectedFormId == old(selectedFormId)
    {
      error := e;
    }

    method ClearError()
      modifies this
      ensures error.None? && forms == old(forms)
      ensures isLoading == old(isLoading) && selectedFormId == old(selectedFormId)
    {
      error := None;
    }
  }
}
