/**
 * The field configuration dialog: the draft field it edits and its error
 * map, the checks run before the draft is handed back, and the edits that
 * keep the draft consistent (options on a type change, a fresh derived
 * configuration on toggling, references reset on a kind change), together
 * with the parent fields it offers.
 */
module ConfigPanel {
  import opened Js
  import opened Schema
  import opened Keyed
  import opened Derived

  const LabelRequired: string := "Field label is required"
  const OptionsRequired: string := "At least one option is required"

  /** The draft of a new field: a text field with an empty label and the
      id drawn from the clock. */
  function BlankDraft(id: string): Field {
    Field(id, Text, "", false, Str(""), NoRules, false, None, [])
  }

  predicate HasChoices(t: FieldType) {
    t == Select || t == Radio
  }

  /** A select or radio field without options. */
  predicate OptionsMissing(f: Field) {
    HasChoices(f.ftype) && |f.options| == 0
  }

  /** The derived configuration the validator is asked about: the draft is
      derived and carries a configuration object. */
  predicate ChecksDerived(f: Field) {
    f.isDerived && f.derivedConfig.Some?
  }

  /** The options a type change leaves: one starter option for a select or
      radio field, none otherwise. */
  function OptionsForType(t: FieldType): (r: seq<Choice>)
    ensures r != [] <==> HasChoices(t)
    ensures |r| <= 1
  {
    if HasChoices(t) then [Choice("Option 1", "option1")] else []
  }

  /** Which attribute of an option an edit writes. */
  datatype OptionKey = LabelKey | ValueKey

  function SetOptionKey(o: Choice, key: OptionKey, value: string): Choice {
    match key
    case LabelKey => o.(labelText := value)
    case ValueKey => o.(value := value)
  }

  /** `options.map((opt, i) => i === index ? { ...opt, [key]: value } : opt)`,
      with `offset` the position of `options[0]` in the whole list. */
  function MapAt(options: seq<Choice>, index: int, key: OptionKey, value: string, offset: nat): seq<Choice>
  {
    if options == [] then []
    else [if offset == index then SetOptionKey(options[0], key, value) else options[0]]
         + MapAt(options[1..], index, key, value, offset + 1)
  }

  /** `options.filter((_, i) => i !== index)`, with `offset` as above. */
  function FilterAt(options: seq<Choice>, index: int, offset: nat): seq<Choice>
  {
    if options == [] then []
    else (if offset == index then [] else [options[0]]) + FilterAt(options[1..], index, offset + 1)
  }

  /** Editing one option replaces exactly that option; an index outside the
      list changes nothing. */
  lemma {:induction false} MapAtSpec(options: seq<Choice>, index: int, key: OptionKey, value: string, offset: nat)
    ensures offset <= index < offset + |options| ==>
      MapAt(options, index, key, value, offset) == options[index - offset := SetOptionKey(options[index - offset], key, value)]
    ensures !(offset <= index < offset + |options|) ==> MapAt(options, index, key, value, offset) == options
  {
    if options != [] {
      MapAtSpec(options[1..], index, key, value, offset + 1);
      if offset < index < offset + |options| {
        assert options[1..][index - offset - 1 := SetOptionKey(options[index - offset], key, value)]
          == options[index - offset := SetOptionKey(options[index - offset], key, value)][1..];
      }
    }
  }

  /** Removing an option drops exactly that one and keeps the others in
      order; an index outside the list changes nothing. */
  lemma {:induction false} FilterAtSpec(options: seq<Choice>, index: int, offset: nat)
    ensures offset <= index < offset + |options| ==>
      FilterAt(options, index, offset) == options[..index - offset] + options[index - offset + 1..]
    ensures !(offset <= index < offset + |options|) ==> FilterAt(options, index, offset) == options
  {
    if options != [] {
      FilterAtSpec(options[1..], index, offset + 1);
      if offset < index < offset + |options| {
        assert options[1..][..index - offset - 1] == options[1..index - offset];
        assert options[1..][index - offset..] == options[index - offset + 1..];
        assert [options[0]] + options[1..index - offset] == options[..index - offset];
      } else if index == offset {
        assert options[1..] == options[index - offset + 1..];
      }
    }
  }

  /** The kind of a draft's derived configuration (`config.derivedConfig?.type`). */
  function KindOf(f: Field): DerivedKind {
    if f.derivedConfig.Some? then f.derivedConfig.value.kind else NoKind
  }

  /** `availableParentFields`: the parents offered for the draft's kind, or
      none when the draft is not derived. */
  function ParentChoices(f: Field, allFields: seq<Field>): (r: seq<Field>)
    ensures !f.isDerived ==> r == []
  {
    if f.isDerived then AvailableParents(KindOf(f), allFields, f.id) else []
  }

  /** The last-name list: the parents offered, less the field picked as the
      first name. */
  function LastNameChoices(f: Field, allFields: seq<Field>): seq<Field> {
    Without(ParentChoices(f, allFields), FieldId, if f.derivedConfig.Some? then f.derivedConfig.value.firstNameField else "")
  }

  /** The dialog offers only non-derived fields of the kind's parent type,
      never the draft itself, and the last-name list never repeats the
      first name picked. */
  lemma ParentChoicesSpec(f: Field, allFields: seq<Field>)
    requires f.id != ""
    ensures forall p | p in ParentChoices(f, allFields) ::
      p in allFields && !p.isDerived && p.id != f.id
      && ParentFieldTypes(KindOf(f)).Some? && p.ftype in ParentFieldTypes(KindOf(f)).value
    ensures forall p | p in LastNameChoices(f, allFields) ::
      p in ParentChoices(f, allFields) && (f.derivedConfig.Some? ==> p.id != f.derivedConfig.value.firstNameField)
  {
    if f.isDerived {
      AvailableParentsSpec(KindOf(f), allFields, f.id);
    }
  }

  /** The validator itself accepts what the dialog would never offer: a
      date field that is derived and names itself as its parent. */
  lemma ValidatorAcceptsSelfReference(f: Field)
    requires f.id != "" && f.ftype == Date && f.isDerived
    requires f.derivedConfig == Some(DerivedConfig(AgeFromDob, f.id, "", ""))
    ensures ConfigResolves(f.derivedConfig, [f])
    ensures f !in ParentChoices(f, [f])
  {
    assert [f][0].id == f.id;
    AvailableParentsSpec(AgeFromDob, [f], f.id);
  }

  /** A configuration freshly switched on names no parent, so the validator
      rejects it whatever the other fields are. */
  lemma FreshDerivedConfigRejected(allFields: seq<Field>)
    ensures !ConfigResolves(Some(DerivedConfig(AgeFromDob, "", "", "")), allFields)
  {
  }

  class FieldConfigPanel {
    var config: Field
    var errors: map<string, string>

    /** The draft when the dialog opens: a copy of the field being edited,
        or a blank text field with a clock-drawn id. */
    constructor (field: Option<Field>, newId: string)
      ensures config == if field.Some? then field.value else BlankDraft(newId)
      ensures errors == map[]
    {
      config := if field.Some? then field.value else BlankDraft(newId);
      errors := map[];
    }

    /** `validateConfig()`: one entry per failing check, keyed `label`,
        `options` and `derived`; the derived entry is the validator's first
        message. */
    method ValidateConfig(allFields: seq<Field>) returns (newErrors: map<string, string>)
      ensures "label" in newErrors <==> Trim(config.labelText) == ""
      ensures "label" in newErrors ==> newErrors["label"] == LabelRequired
      ensures "options" in newErrors <==> OptionsMissing(config)
      ensures "options" in newErrors ==> newErrors["options"] == OptionsRequired
      ensures "derived" in newErrors <==> ChecksDerived(config) && !ConfigResolves(config.derivedConfig, allFields)
      ensures "derived" in newErrors ==> IsDerivedMessage(newErrors["derived"])
      ensures forall k | k in newErrors :: k in {"label", "options", "derived"}
    {
      newErrors := map[];
      if Trim(config.labelText) == "" {
        newErrors := newErrors["label" := LabelRequired];
      }
      if HasChoices(config.ftype) && |config.options| == 0 {
        newErrors := newErrors["options" := OptionsRequired];
      }
      if config.isDerived && config.derivedConfig.Some? {
        var derivedErrors := ValidateDerivedFieldConfig(config.derivedConfig, allFields);
        if |derivedErrors| > 0 {
          newErrors := newErrors["derived" := derivedErrors[0]];
        }
      }
    }

    /** `handleSave()`: with errors, show them and keep the dialog open;
        without, hand the draft back and clear the errors. */
    method HandleSave(allFields: seq<Field>) returns (saved: Option<Field>)
      modifies this
      ensures saved.Some? <==>
        Trim(config.labelText) != "" && !OptionsMissing(config)
        && !(ChecksDerived(config) && !ConfigResolves(config.derivedConfig, allFields))
      ensures saved.Some? ==> saved.value == config && errors == map[]
      ensures saved.None? ==> |errors| > 0
      ensures config == old(config)
    {
      var newErrors := ValidateConfig(allFields);
      if |newErrors| > 0 {
        errors := newErrors;
        saved := None;
        return;
      }
      assert "label" !in newErrors && "options" !in newErrors && "derived" !in newErrors;
      saved := Some(config);
      HandleClose();
    }

    /** `handleClose()`. */
    method HandleClose()
      modifies this
      ensures errors == map[] && config == old(config)
    {
      errors := map[];
    }

    /** The type select: set the type and reset the options to the type's
        starter list. */
    method ChangeType(t: FieldType)
      modifies this
      ensures config == old(config).(ftype := t, options := OptionsForType(t))
      ensures !OptionsMissing(config)
      ensures errors == old(errors)
    {
      config := config.(ftype := t, options := OptionsForType(t));
    }

    /** `addOption()`: append an option with empty label and value. */
    method AddOption()
      modifies this
      ensures config == old(config).(options := old(config).options + [Choice("", "")])
      ensures !OptionsMissing(config)
      ensures errors == old(errors)
    {
      config := config.(options := config.options + [Choice("", "")]);
    }

    /** `updateOption(index, key, value)`. */
    method UpdateOption(index: int, key: OptionKey, value: string)
      modifies this
      ensures 0 <= index < |old(config).options| ==>
        config == old(config).(options := old(config).options[index := SetOptionKey(old(config).options[index], key, value)])
      ensures !(0 <= index < |old(config).options|) ==> config == old(config)
      ensures errors == old(errors)
    {
      MapAtSpec(config.options, index, key, value, 0);
      config := config.(options := MapAt(config.options, index, key, value, 0));
    }

    /** `removeOption(index)`. */
    method RemoveOption(index: int)
      modifies this
      ensures 0 <= index < |old(config).options| ==>
        config == old(config).(options := old(config).options[..index] + old(config).options[index + 1..])
      ensures !(0 <= index < |old(config).options|) ==> config == old(config)
      ensures errors == old(errors)
    {
      FilterAtSpec(config.options, index, 0);
      config := config.(options := FilterAt(config.options, index, 0));
    }

    /** The derived switch: switching on starts an age configuration with
        no parent; switching off drops the configuration. */
    method ToggleDerived(on: bool)
      modifies this
      ensures config == old(config).(isDerived := on,
        derivedConfig := if on then Some(DerivedConfig(AgeFromDob, "", "", "")) else None)
      ensures !on ==> !ChecksDerived(config) && ParentChoices(config, []) == []
      ensures errors == old(errors)
    {
      config := config.(isDerived := on,
        derivedConfig := if on then Some(DerivedConfig(AgeFromDob, "", "", "")) else None);
    }

    /** The derivation-type select: set the kind and clear every field
        reference. */
    method ChangeDerivedKind(kind: DerivedKind)
      requires kind == AgeFromDob || kind == FullName
      modifies this
      ensures config == old(config).(derivedConfig := Some(DerivedConfig(kind, "", "", "")))
      ensures errors == old(errors)
    {
      config := config.(derivedConfig := Some(DerivedConfig(kind, "", "", "")));
    }

    /** A parent select (`parentField`, `firstNameField` or `lastNameField`). */
    method ChooseParent(role: ParentRole, id: string)
      requires config.derivedConfig.Some?
      modifies this
      ensures config.derivedConfig.Some?
      ensures config == old(config).(derivedConfig := Some(WithParent(old(config).derivedConfig.value, role, id)))
      ensures errors == old(errors)
    {
      config := config.(derivedConfig := Some(WithParent(config.derivedConfig.value, role, id)));
    }
  }

  /** Which reference a parent select writes. */
  datatype ParentRole = ParentDate | FirstName | LastName

  function WithParent(c: DerivedConfig, role: ParentRole, id: string): DerivedConfig {
    match role
    case ParentDate => c.(parentField := id)
    case FirstName => c.(firstNameField := id)
    case LastName => c.(lastNameField := id)
  }

  /** An age configuration whose parent was picked from the dialog's list
      passes the validator. */
  lemma OfferedParentAccepted(f: Field, allFields: seq<Field>, p: Field)
    requires f.isDerived && KindOf(f) == AgeFromDob && f.id != ""
    requires p in ParentChoices(f, allFields) && UniqueIds(allFields) && p.id != ""
    ensures ConfigResolves(Some(WithParent(f.derivedConfig.value, ParentDate, p.id)), allFields)
  {
    ParentChoicesSpec(f, allFields);
    var j :| 0 <= j < |allFields| && allFields[j] == p;
    assert forall i | 0 <= i < j :: allFields[i].id != p.id;
  }
}
