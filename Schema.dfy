/**
 * The schema vocabulary of the form builder: field types, validation rule
 * names and the rules each field type offers, derived-field kinds and the
 * parent types they need, the message templates, the builder's limits, and
 * the records describing a field, a field patch (`{ ...field, ...updates }`)
 * and a saved form.
 */
module Schema {
  import opened Js

  // ----- Field types -----

  datatype FieldType = Text | Number | TextArea | Select | Radio | Checkbox | Date

  const AllFieldTypes: seq<FieldType> := [Text, Number, TextArea, Select, Radio, Checkbox, Date]

  /** The type's string tag, as stored in a field's `type` attribute. */
  function TypeName(t: FieldType): string {
    match t
    case Text => "text"
    case Number => "number"
    case TextArea => "textarea"
    case Select => "select"
    case Radio => "radio"
    case Checkbox => "checkbox"
    case Date => "date"
  }

  /** There are exactly seven field types, each with its own tag. */
  lemma SevenFieldTypes()
    ensures |AllFieldTypes| == 7
    ensures forall t: FieldType :: t in AllFieldTypes
    ensures forall i, j | 0 <= i < j < |AllFieldTypes| ::
      TypeName(AllFieldTypes[i]) != TypeName(AllFieldTypes[j])
  {
    forall t: FieldType ensures t in AllFieldTypes {
      match t
      case Text => assert AllFieldTypes[0] == t;
      case Number => assert AllFieldTypes[1] == t;
      case TextArea => assert AllFieldTypes[2] == t;
      case Select => assert AllFieldTypes[3] == t;
      case Radio => assert AllFieldTypes[4] == t;
      case Checkbox => assert AllFieldTypes[5] == t;
      case Date => assert AllFieldTypes[6] == t;
    }
  }

  // ----- Validation rule names -----

  datatype ValidationType = Required | MinLength | MaxLength | Email | Password | MinValue | MaxValue

  function ValidationTypeName(v: ValidationType): string {
    match v
    case Required => "required"
    case MinLength => "minLength"
    case MaxLength => "maxLength"
    case Email => "email"
    case Password => "password"
    case MinValue => "minValue"
    case MaxValue => "maxValue"
  }

  /**
   * The `validations` list of each field type. The number type names two
   * keys that the table of rule names does not define (`MIN_DIGITS`,
   * `MAX_DIGITS`), so those entries are `undefined` (here `None`).
   */
  function Validations(t: FieldType): seq<Option<ValidationType>> {
    match t
    case Text => [Some(Required), Some(MinLength), Some(MaxLength), Some(Email), Some(Password)]
    case Number => [Some(Required), Some(MinValue), Some(MaxValue), None, None]
    case TextArea => [Some(Required), Some(MinLength), Some(MaxLength)]
    case Select => [Some(Required)]
    case Radio => [Some(Required)]
    case Checkbox => []
    case Date => [Some(Required)]
  }

  predicate Permits(t: FieldType, v: ValidationType) {
    Some(v) in Validations(t)
  }

  /** Which rule names each field type offers. */
  lemma PermittedRules(t: FieldType, v: ValidationType)
    ensures t in {Select, Radio, Date} ==> (Permits(t, v) <==> v == Required)
    ensures t == Checkbox ==> !Permits(t, v)
    ensures t == Text ==> (Permits(t, v) <==> v in {Required, MinLength, MaxLength, Email, Password})
    ensures t == TextArea ==> (Permits(t, v) <==> v in {Required, MinLength, MaxLength})
    ensures t == Number ==> (Permits(t, v) <==> v in {Required, MinValue, MaxValue})
    ensures t == Number ==> |Validations(t)| == 5 && Validations(t)[3] == None && Validations(t)[4] == None
  {
  }

  // ----- Derived-field kinds -----

  /** `DERIVED_FIELD_TYPES`, plus `NoKind` for a configuration whose `type`
      is missing or empty. */
  datatype DerivedKind = AgeFromDob | FullName | CalculatedField | NoKind

  function DerivedKindName(k: DerivedKind): string {
    match k
    case AgeFromDob => "age_from_dob"
    case FullName => "full_name"
    case CalculatedField => "calculated_field"
    case NoKind => ""
  }

  /** `DERIVED_FIELD_CONFIG[k].parentFieldTypes`; the calculated kind has no entry. */
  function ParentFieldTypes(k: DerivedKind): Option<seq<FieldType>> {
    match k
    case AgeFromDob => Some([Date])
    case FullName => Some([Text])
    case _ => None
  }

  lemma DerivedKindParents(k: DerivedKind)
    ensures ParentFieldTypes(k).Some? <==> k in {AgeFromDob, FullName}
    ensures k == AgeFromDob ==> ParentFieldTypes(k) == Some([Date])
    ensures k == FullName ==> ParentFieldTypes(k) == Some([Text])
  {
  }

  // ----- Message templates -----

  function RequiredMessage(labelText: string): string {
    labelText + " is required"
  }

  function MinLengthMessage(labelText: string, n: int): string {
    labelText + " must be at least " + IntToString(n) + " characters"
  }

  function MaxLengthMessage(labelText: string, n: int): string {
    labelText + " must be no more than " + IntToString(n) + " characters"
  }

  const EmailMessage: string := "Please enter a valid email address"

  const PasswordMessage: string := "Password must be at least 8 characters and contain at least one number"

  function MinValueMessage(labelText: string, n: int): string {
    labelText + " must be at least " + IntToString(n)
  }

  function MaxValueMessage(labelText: string, n: int): string {
    labelText + " must be no more than " + IntToString(n)
  }

  /** The templates fill in the label and the rule's parameter. */
  lemma LengthMessageExample()
    ensures RequiredMessage("Email") == "Email is required"
    ensures MinLengthMessage("Name", 3) == "Name must be at least 3 characters"
  {
    assert IntToString(3) == "3";
    assert "Name" + " must be at least " + "3" + " characters" == "Name must be at least 3 characters";
  }

  lemma ValueMessageExample()
    ensures MinValueMessage("Age", -5) == "Age must be at least -5"
  {
    assert NatToString(5) == "5";
    assert IntToString(-5) == "-" + "5";
    assert "Age" + " must be at least " + ("-" + "5") == "Age must be at least -5";
  }

  // ----- Builder limits -----

  const MaxFields: nat := 50
  const MinFormNameLength: nat := 1
  const MaxFormNameLength: nat := 100
  const DefaultFieldLabelPrefix: string := "Field"

  // ----- Field definitions -----

  /** The `validation` object of a field. Numeric parameters are `None` when
      absent; the two flags are `false` when absent. */
  datatype Rules = Rules(
    minLength: Option<int>, maxLength: Option<int>,
    minValue: Option<int>, maxValue: Option<int>,
    minDigits: Option<int>, maxDigits: Option<int>,
    email: bool, password: bool)

  const NoRules: Rules := Rules(None, None, None, None, None, None, false, false)

  /** A derived field's `derivedConfig`; an attribute the object lacks is `""`. */
  datatype DerivedConfig = DerivedConfig(
    kind: DerivedKind, parentField: string, firstNameField: string, lastNameField: string)

  datatype Choice = Choice(labelText: string, value: string)

  datatype Field = Field(
    id: string, ftype: FieldType, labelText: string, required: bool,
    defaultValue: Value, validation: Rules, isDerived: bool,
    derivedConfig: Option<DerivedConfig>, options: seq<Choice>)

  /** The keys an update object may carry; `None` means the key is absent. */
  datatype FieldPatch = FieldPatch(
    id: Option<string>, ftype: Option<FieldType>, labelText: Option<string>,
    required: Option<bool>, defaultValue: Option<Value>, validation: Option<Rules>,
    isDerived: Option<bool>, derivedConfig: Option<Option<DerivedConfig>>,
    options: Option<seq<Choice>>)

  const EmptyPatch: FieldPatch := FieldPatch(None, None, None, None, None, None, None, None, None)

  /** The patch that carries every key of `f`. */
  function PatchOf(f: Field): FieldPatch {
    FieldPatch(Some(f.id), Some(f.ftype), Some(f.labelText), Some(f.required), Some(f.defaultValue),
      Some(f.validation), Some(f.isDerived), Some(f.derivedConfig), Some(f.options))
  }

  /** The key lists of fields are searched and filtered by. */
  function FieldId(f: Field): string {
    f.id
  }

  /** `{ ...f, ...p }`: the keys `p` carries win. */
  function Merge(f: Field, p: FieldPatch): Field {
    Field(
      p.id.GetOr(f.id), p.ftype.GetOr(f.ftype), p.labelText.GetOr(f.labelText),
      p.required.GetOr(f.required), p.defaultValue.GetOr(f.defaultValue),
      p.validation.GetOr(f.validation), p.isDerived.GetOr(f.isDerived),
      p.derivedConfig.GetOr(f.derivedConfig), p.options.GetOr(f.options))
  }

  /** `{ ...p, ...q }` for two patches. */
  function Combine(p: FieldPatch, q: FieldPatch): FieldPatch {
    FieldPatch(
      if q.id.Some? then q.id else p.id,
      if q.ftype.Some? then q.ftype else p.ftype,
      if q.labelText.Some? then q.labelText else p.labelText,
      if q.required.Some? then q.required else p.required,
      if q.defaultValue.Some? then q.defaultValue else p.defaultValue,
      if q.validation.Some? then q.validation else p.validation,
      if q.isDerived.Some? then q.isDerived else p.isDerived,
      if q.derivedConfig.Some? then q.derivedConfig else p.derivedConfig,
      if q.options.Some? then q.options else p.options)
  }

  /** Spreading behaves as a right-biased overwrite: an empty update is the
      identity, a full update replaces the field, a repeated update changes
      nothing more, and two updates in a row are one combined update. */
  lemma MergeLaws(f: Field, g: Field, p: FieldPatch, q: FieldPatch)
    ensures Merge(f, EmptyPatch) == f
    ensures Merge(f, PatchOf(g)) == g
    ensures Merge(Merge(f, p), p) == Merge(f, p)
    ensures Merge(Merge(f, p), q) == Merge(f, Combine(p, q))
  {
  }

  /** A form as the builder hands it over (`{ name, fields }`). */
  datatype Draft = Draft(name: string, fields: seq<Field>)

  /** A saved form. */
  datatype Form = Form(
    id: string, name: string, fields: seq<Field>, createdAt: string, updatedAt: Option<string>)

  /** The keys an update of a saved form may carry. */
  datatype FormPatch = FormPatch(name: Option<string>, fields: Option<seq<Field>>)

  function MergeForm(f: Form, p: FormPatch): (r: Form)
    ensures r.id == f.id && r.createdAt == f.createdAt && r.updatedAt == f.updatedAt
    ensures r.name == p.name.GetOr(f.name) && r.fields == p.fields.GetOr(f.fields)
  {
    f.(name := p.name.GetOr(f.name), fields := p.fields.GetOr(f.fields))
  }

  /** No two fields of the list share an id (the builder draws ids from the clock). */
  predicate UniqueIds(fs: seq<Field>) {
    forall i, j | 0 <= i < |fs| && 0 <= j < |fs| && i != j :: fs[i].id != fs[j].id
  }
}
