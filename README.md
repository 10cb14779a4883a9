# Form-Builder field-schema and evaluation engine, in Dafny

Form-Builder is a browser application for designing forms. A user puts
together an ordered list of fields, configures each one and saves the form
to the browser's storage. The forms can then be previewed and filled in.
This project models the part of the application that has real semantics:

- **Schema** (`Schema`): the seven field types, the validation rules each
  type permits, the derived-field kinds with their parent types, the
  message templates and the limits. It also holds the records for fields,
  forms and partial updates (`{ ...field, ...updates }`).
- **Validation engine** (`Validation`):
  - `validateField` produces an ordered list of messages. The required
    check short-circuits; after it come email, password, min/max length,
    number with min/max value, and min/max digits.
  - `validateForm` keeps the first message of each non-derived field.
  - The single-rule predicate `validateRule` and the form-name check sit
    alongside.
- **Derivation engine** (`Derived`):
  - age in completed years from an ISO date of birth;
  - full name from a first and a last name;
  - the one-pass `updateDerivedFields` with its change flag;
  - the parent-field filter and the derived-config validator.
- **Stateful containers**. Each one is a class whose methods are the
  reducers; each method's contract states the whole new state.
  - the builder's field list (`FormBuilder`);
  - the preview's value and error maps (`Preview`);
  - the preview session policy of the form renderer (`Renderer`);
  - the field configuration dialog (`ConfigPanel`);
  - the saved-forms list (`MyForms`) and its storage layer (`Storage`).
- **JavaScript semantics** (`Js`) that the engine relies on: truthiness,
  `String(v)`, `trim`, the `\s` and `\d` classes, integer-to-string and
  the prefix parser behind `parseFloat`. `Keyed` models `findIndex`,
  `find`, `filter` by id and `splice` with its negative and clamped
  indices.

Nondeterministic inputs are parameters:

- the date "today";
- ids drawn from `Date.now()`;
- ISO timestamps;
- the outcome of the submit handler.

Browser storage is one value: absent, unparsable, or a stored list of forms.

## Model

| member | source | states |
|---|---|---|
| Js.Lookup | src/utils/derivedFields.js:27 | reading a present key gives its stored value, and reading a key the value map lacks gives `undefined` |
| Js.TextOrEmpty | src/utils/derivedFields.js:62-63 | `v \|\| ''` is the string form of a truthy value and the empty string for every falsy value |
| Js.TrimStartAppend | src/utils/derivedFields.js:65 | trimming the front of a concatenation skips an all-space first part entirely and otherwise stops inside it |
| Js.TrimEndAppend | src/utils/derivedFields.js:65 | trimming the back of a concatenation skips an all-space last part entirely and otherwise stops inside it |
| Js.TrimStartOfSpaceFree | src/utils/derivedFields.js:65 | a string not starting with white space is its own front trim |
| Js.TrimEndOfSpaceFree | src/utils/derivedFields.js:65 | a string not ending with white space is its own back trim |
| Js.TrimEmptyIffAllSpace | src/utils/validation.js:8 | `s.trim() === ''` exactly when every character of `s` is white space |
| Js.TrimStartNonEmpty | src/utils/validation.js:8 | a string with a non-space character keeps a non-empty front trim that starts with a non-space |
| Js.TrimEndNonEmpty | src/utils/validation.js:8 | a string starting with a non-space keeps a non-empty back trim |
| Js.DigitCount | src/utils/validation.js:60 | the number of `\d` characters never exceeds the length |
| Js.DigitCountPositive | src/utils/validation.js:29 | `/\d/.test(s)` holds exactly when the digit count is positive |
| Js.DigitChar | src/utils/constants.js:126 | every decimal digit has a character that reads back as that digit |
| Js.DigitsValueAppend | src/utils/constants.js:126 | the value of a concatenated digit string is the first part shifted by the length of the second, plus the second |
| Js.NatToString | src/utils/derivedFields.js:54 | the decimal rendering of a natural number is a non-empty digit string that reads back as that number |
| Js.IntToString | src/utils/constants.js:126-130 | an integer renders as its magnitude's digits, preceded by `-` when negative |
| Js.DigitPrefix | src/utils/validation.js:44 | the digit run `parseFloat` consumes is no longer than its input and holds only digits |
| Js.DigitPrefixMaximal | src/utils/validation.js:44 | that digit run is a prefix of the input that the next character cannot extend |
| Js.FractionValue | src/utils/validation.js:44 | the digits after a decimal point denote a value in [0, 1) |
| Schema.SevenFieldTypes | src/utils/constants.js:1-9 | there are exactly seven field types, pairwise distinct |
| Schema.PermittedRules | src/utils/constants.js:21-102 | select, radio and date permit only `required`; checkbox permits nothing; text permits required/minLength/maxLength/email/password; textarea permits required/minLength/maxLength; number permits required/minValue/maxValue, and its two digit entries are `undefined` |
| Schema.DerivedKindParents | src/utils/constants.js:104-121 | age_from_dob needs a date parent and full_name needs text parents; calculated_field has no configuration entry |
| Schema.LengthMessageExample | src/utils/constants.js:123-131 | the required and length templates produce the exact texts, e.g. "Name must be at least 3 characters" |
| Schema.ValueMessageExample | src/utils/constants.js:123-131 | the value templates produce the exact texts, including negative bounds, e.g. "Age must be at least -5" |
| Schema.MergeLaws | src/store/slices/formBuilderSlice.js:37 | a shallow merge with no keys is the identity; merging all of another field's keys gives that field; merging twice is idempotent; two merges are one merge of the combined updates |
| Schema.MergeForm | src/store/slices/myFormsSlice.js:30 | merging a form update keeps the id and timestamps and takes each of name and fields from the update when it has it |
| Keyed.IndexOf | src/store/slices/formBuilderSlice.js:34 | `findIndex` returns the first index whose id matches, or -1 exactly when no element matches |
| Keyed.Find | src/store/utils/localStorage.js:71 | `find` returns a value exactly when some element matches, and then it is the element at `findIndex` |
| Keyed.Without | src/store/slices/formBuilderSlice.js:42 | filtering by id keeps exactly the elements with another id, in order, and returns the list unchanged when no element has the id |
| Keyed.WithoutIdempotent | src/store/utils/localStorage.js:63-67 | deleting the same id twice leaves what deleting it once left |
| Keyed.Splice | src/store/slices/formBuilderSlice.js:47-48 | `splice` within range cuts and inserts at the index; a negative start counts from the end, clamped to the array |
| Keyed.MovedPermutes | src/store/slices/formBuilderSlice.js:45-50 | taking an element out and inserting it at an in-range index keeps the length and the multiset and puts the element at that index |
| Keyed.MovedAdjacent | src/store/slices/formBuilderSlice.js:52-70 | moving an element one place either way swaps it with its neighbour |
| Validation.BlankValues | src/utils/validation.js:8 | a value is empty exactly when it is missing, `false`, or a white-space-only string |
| Validation.EmailPatternCharacterization | src/utils/validation.js:19-24 | `^[^\s@]+@[^\s@]+\.[^\s@]+$` matches exactly the strings without white space holding one `@`, not first, followed by a `.` that is neither the first nor the last character after it |
| Validation.EmailPatternShaped | src/utils/validation.js:21 | a match of the pattern has that shape |
| Validation.EmailShapeMatches | src/utils/validation.js:21 | a string of that shape matches the pattern |
| Validation.PasswordRule | src/utils/validation.js:27-31 | on a string the password rule fails exactly when it is shorter than 8 characters or holds no digit |
| Validation.Report | src/utils/validation.js:18-69 | the first n checks produce at most n messages |
| Validation.ReportStep | src/utils/validation.js:18-69 | each further check appends its own message exactly when it fails, after the earlier ones |
| Validation.ReportComplete | src/utils/validation.js:18-69 | no message exactly when no check fails, and every failing check's message is reported |
| Validation.ValidateField | src/utils/validation.js:3-72 | `validateField`'s push sequence yields exactly the specified list: only the required message for a required empty value, nothing for an optional empty one, otherwise the failing checks' messages in rule order |
| Validation.FormatRuleMessages | src/utils/validation.js:18-31 | the email and password section reports exactly the failing checks among the first two, in order |
| Validation.LengthRuleMessages | src/utils/validation.js:33-40 | the length section appends exactly the failing minimum- and maximum-length checks to what came before |
| Validation.NumberRuleMessages | src/utils/validation.js:42-56 | the number section appends exactly the failing parse and bound checks |
| Validation.DigitRuleMessages | src/utils/validation.js:58-69 | the digit section appends exactly the failing digit-count checks |
| Validation.BlankValueMessages | src/utils/validation.js:8-16 | an empty value gives exactly `["<label> is required"]` when required and no message otherwise |
| Validation.FirstMessageIsEarliestFailure | src/utils/validation.js:18-69 | for a non-empty value the first message belongs to the earliest failing check, and every check before it passes |
| Validation.EarliestFailing | src/utils/validation.js:18-69 | finds the earliest failing check whose message opens the report |
| Validation.NotANumberReport | src/utils/validation.js:43-56 | for any reading of a number field with no parsed number, the report holds the "must be a valid number" message and neither bound fails |
| Validation.MinDigitsReport | src/utils/validation.js:59-69 | with only a minimum of n digits, the report is exactly the "at least n digits" message when fewer than n digits were counted, and empty otherwise |
| Validation.NotANumberSkipsBounds | src/utils/validation.js:43-56 | on a number field an unparsable value reports "must be a valid number" and neither bound can fail |
| Validation.MinDigitsOnly | src/utils/validation.js:59-63 | with only a minimum of n digits, a value gets exactly the "at least n digits" message iff it holds fewer than n digit characters; "12a3" has 3 and "12a34" has 4 |
| Validation.NoCheckBeforeDigits | src/utils/validation.js:18-56 | a text field with only digit rules passes every check before the digit section |
| Validation.ValidateForm | src/utils/validation.js:74-87 | the loop builds exactly the first-message-per-field map |
| Validation.FormErrorsDomain | src/utils/validation.js:74-87 | a key is present exactly when some non-derived field with that id has a message |
| Validation.FormErrorsPerField | src/utils/validation.js:74-87 | with distinct ids, a field has an entry iff it is not derived and has a message, and the entry is its first message |
| Validation.HasValidationErrors | src/utils/validation.js:89-91 | true exactly when the error map has some key |
| Validation.GetFieldError | src/utils/validation.js:93-95 | a message exactly when the key is present with a non-empty message, and then it is that message |
| Validation.AllChecksPass | src/utils/validation.js:18-69 | no check in the order fails exactly when none of the nine checks fails (`NoCheckFails`) |
| Validation.SingleRuleChecks | src/utils/validation.js:98-129 | on the one-rule field `validateRule` builds, none of the nine checks fails exactly when that one rule holds of the reading (length, bound, digit count, email shape, password strength) |
| Validation.ValidateRuleAgreesWithValidateField | src/utils/validation.js:98-129 | for a value that is not white space only, `validateRule` passes exactly when an optional field carrying only that rule gets no message from `validateField` (upper bounds of 0 excluded) |
| Validation.SingleRuleVerdict | src/utils/validation.js:98-129 | on a truthy value `validateRule` holds exactly when none of the nine checks fails (`NoCheckFails`) for its one-rule field |
| Validation.FormNameErrors | src/utils/validation.js:132-149 | at most one message; none iff the trimmed name is non-empty and the length is 1 to 100; "required" iff the name is blank; the minimum-length message can never occur |
| Derived.DaysInMonth | src/utils/derivedFields.js:34-40 | month lengths lie between 28 and 31, with 29 exactly for February of a leap year |
| Derived.ParseIsoDate | src/utils/derivedFields.js:34-40 | a parsed date is a valid calendar date |
| Derived.TwoDigits | src/utils/derivedFields.js:34 | a two-digit rendering reads back as its number |
| Derived.FormatIsoDate | src/utils/derivedFields.js:34 | an ISO date string has ten characters |
| Derived.YearDigits | src/utils/derivedFields.js:34-40 | a year from 0 to 9999 is rendered as four digit characters whose value is that year |
| Derived.IsoDateRoundTrip | src/utils/derivedFields.js:34-40 | parsing the ISO rendering of a valid date gives that date back |
| Derived.AgeIsCompletedYears | src/utils/derivedFields.js:47-54 | the year difference, decremented before the birthday, is the number of birthdays reached: never negative, the last one not after today, the next one after today |
| Derived.AgeFromDobCases | src/utils/derivedFields.js:26-59 | the age is empty exactly for a falsy, unparsable or future birth date, and otherwise is the decimal count of completed years |
| Derived.AgeAroundBirthday | src/utils/derivedFields.js:47-54 | born 2000-06-15: "23" on 2024-06-14 and "24" on 2024-06-15 |
| Derived.JoinTrimmed | src/utils/derivedFields.js:65 | joining with a space and trimming: an empty part leaves the other part trimmed, and two trimmed non-empty parts keep exactly one space |
| Derived.FullNameParts | src/utils/derivedFields.js:61-67 | both parts empty give `''`; one empty part gives the other part trimmed, with no stray space |
| Derived.DerivedValueLocal | src/utils/derivedFields.js:3-24 | a derived value depends only on the entries its configuration names, and is `''` when it names none (not derived, no configuration, unknown kind) |
| Derived.UpdateDerivedFields | src/utils/derivedFields.js:70-85 | the copy-and-update loop returns exactly the specified map and change flag |
| Derived.RecomputeKeepsOthers | src/utils/derivedFields.js:70-85 | entries other than derived fields' ids keep their presence and value |
| Derived.RecomputeSetsDerived | src/utils/derivedFields.js:70-85 | with distinct ids, each derived id holds the value computed from the input map |
| Derived.RecomputeChangeFlag | src/utils/derivedFields.js:70-85 | with distinct ids, the flag is set iff some derived entry differs strictly from its computed value, a missing key included |
| Derived.RecomputeExtends | src/utils/derivedFields.js:70-85 | the pass keeps every input key, and any key it adds holds a string |
| Derived.RecomputeUnchanged | src/utils/derivedFields.js:70-85 | a pass that reports no change returns its input map |
| Derived.RecomputeIdempotent | src/utils/derivedFields.js:70-85 | with distinct ids and no derived parent, a second pass over the output (same day) reports no change and returns the same map |
| Derived.AvailableParentsSpec | src/utils/derivedFields.js:88-114 | the offered parents are an order-preserving subsequence holding exactly the eligible fields: not the current field, not derived, of the kind's parent type; none for a kind without parent types |
| Derived.ValidateDerivedFieldConfig | src/utils/derivedFields.js:117-159 | at most one message, drawn from the validator's texts; none iff the kind is known and every referenced id is non-empty and names a field of the parent type; the type message for a missing config or kind, and the unknown-kind message for calculated_field |
| Storage.Listed | src/store/utils/localStorage.js:2-11 | the stored list when one parses, and `[]` when nothing is stored or the data does not parse |
| Storage.NewForm | src/store/utils/localStorage.js:36-40 | the saved form is the draft plus the given id and creation time, with no update time |
| Storage.FindAppended | src/store/utils/localStorage.js:34-44 | after appending a form with a fresh id, `find` by that id returns it |
| Storage.FormStorage.constructor | src/store/utils/localStorage.js:4-5 | storage starts empty |
| Storage.FormStorage.GetAllForms | src/store/utils/localStorage.js:30-32 | returns the stored list |
| Storage.FormStorage.SaveForm | src/store/utils/localStorage.js:34-44 | appends exactly the new form and returns it; with a fresh id, looking it up afterwards finds it |
| Storage.FormStorage.UpdateForm | src/store/utils/localStorage.js:46-61 | a present id merges the update into the first match, stamps `updatedAt`, writes the list back and returns the merged form; an absent id returns null and writes nothing |
| Storage.FormStorage.DeleteForm | src/store/utils/localStorage.js:63-67 | the stored list keeps exactly the forms with another id, and stays as it was when no form has the id |
| Storage.FormStorage.GetFormById | src/store/utils/localStorage.js:69-72 | a form exactly when one with that id is stored, and then the first such form |
| FormBuilder.NewField | src/store/slices/formBuilderSlice.js:17-31 | each attribute of the new field is the payload's key when present and otherwise the default: generated id, "<Type> Field" label, not required, empty default, no rules, not derived, no options |
| FormBuilder.MoveDownAsWritten | src/store/slices/formBuilderSlice.js:62-70 | the reducer as written: its guard admits index -1 on a non-empty list |
| FormBuilder.MoveDownAbsentIdLosesField | src/store/slices/formBuilderSlice.js:62-70 | as written, moving an absent id down in `[a, b]` gives `[undefined, a]` and loses `b` |
| FormBuilder.FormBuilderState.constructor | src/store/slices/formBuilderSlice.js:4-11 | the initial builder state: no fields, empty name, nothing being edited or dragged, not loading, no error |
| FormBuilder.FormBuilderState.AddField | src/store/slices/formBuilderSlice.js:17-31 | appends exactly one new field; earlier fields and the other state are unchanged |
| FormBuilder.FormBuilderState.UpdateField | src/store/slices/formBuilderSlice.js:33-39 | a present id merges the updates into the first match only, keeping the length; an absent id changes nothing |
| FormBuilder.FormBuilderState.DeleteField | src/store/slices/formBuilderSlice.js:41-43 | removes every field with the id and keeps the rest in order |
| FormBuilder.FormBuilderState.ReorderFields | src/store/slices/formBuilderSlice.js:45-50 | with in-range indices the new list is a permutation with the dragged field at the drop index |
| FormBuilder.MovedUp | src/store/slices/formBuilderSlice.js:52-60 | the two splices give the list with the field at index i > 0 swapped with i-1; index 0 and an absent id give the list unchanged; the multiset is kept |
| FormBuilder.MovedDown | src/store/slices/formBuilderSlice.js:62-70 | with the presence check added, the two splices give the list with a field at index i < n-1 swapped with i+1; the last field and an absent id give it unchanged; the multiset is kept |
| FormBuilder.FormBuilderState.MoveFieldUp | src/store/slices/formBuilderSlice.js:52-60 | swaps the field at index i > 0 with i-1; index 0 and an absent id change nothing; the multiset is kept |
| FormBuilder.FormBuilderState.MoveFieldDown | src/store/slices/formBuilderSlice.js:62-70 | swaps a present field at index i < n-1 with i+1; the last field and an absent id change nothing; the multiset is kept |
| FormBuilder.FormBuilderState.SetCurrentEditingField | src/store/slices/formBuilderSlice.js:72-74 | sets only the field being edited |
| FormBuilder.FormBuilderState.SetFormName | src/store/slices/formBuilderSlice.js:76-78 | sets only the name |
| FormBuilder.FormBuilderState.SaveForm | src/store/slices/formBuilderSlice.js:80-101 | with a non-empty name and fields, storage gains exactly the new form and the builder resets fields, name, edited field and error, ending not loading; otherwise nothing changes |
| FormBuilder.FormBuilderState.LoadFormForEditing | src/store/slices/formBuilderSlice.js:103-107 | takes the form's fields and name, defaulting to `[]` and `''` |
| FormBuilder.FormBuilderState.ClearForm | src/store/slices/formBuilderSlice.js:109-114 | empties fields and name and nulls the edited field and the error |
| FormBuilder.FormBuilderState.SetError | src/store/slices/formBuilderSlice.js:116-118 | sets only the error |
| FormBuilder.FormBuilderState.ClearError | src/store/slices/formBuilderSlice.js:120-122 | nulls only the error |
| Preview.DefaultValueShape | src/store/slices/previewSlice.js:47 | a seed is never `undefined`: a truthy default is kept, and otherwise it is `false` exactly for a checkbox and `''` for any other type |
| Preview.InitialDataKeys | src/store/slices/previewSlice.js:44-49 | the seeded map's keys are exactly the fields' ids |
| Preview.InitialDataValue | src/store/slices/previewSlice.js:44-49 | with distinct ids, each field is seeded with its own seed value |
| Preview.BuildInitialData | src/store/slices/previewSlice.js:44-49 | the `forEach` loop builds exactly the seeded map |
| Preview.PreviewState.constructor | src/store/slices/previewSlice.js:3-9 | no values, no errors, no form, not submitting, no submit error |
| Preview.PreviewState.SetFormData | src/store/slices/previewSlice.js:15-18 | writes one entry and leaves every other entry and field as it was |
| Preview.PreviewState.SetFormDataBulk | src/store/slices/previewSlice.js:20-22 | the given values win, and every other held entry is kept |
| Preview.PreviewState.SetValidationError | src/store/slices/previewSlice.js:24-31 | stores a non-empty message, and otherwise removes the entry; other entries are untouched |
| Preview.PreviewState.SetValidationErrors | src/store/slices/previewSlice.js:33-35 | replaces the error map wholesale |
| Preview.PreviewState.ClearValidationErrors | src/store/slices/previewSlice.js:37-39 | empties the error map |
| Preview.PreviewState.SetCurrentForm | src/store/slices/previewSlice.js:41-52 | shows the form, seeds the value map from its fields' defaults (derived fields not special-cased, `{}` without fields) and empties the errors |
| Preview.PreviewState.ResetFormData | src/store/slices/previewSlice.js:54-65 | re-seeds from the form on display, or `{}` without one, and always empties the errors |
| Preview.PreviewState.SetSubmitting | src/store/slices/previewSlice.js:67-69 | sets only the submitting flag |
| Preview.PreviewState.SetSubmitError | src/store/slices/previewSlice.js:71-73 | sets only the submit error |
| Preview.PreviewState.ClearSubmitError | src/store/slices/previewSlice.js:75-77 | nulls only the submit error |
| Renderer.WriteEntries | src/components/FormPreview/FormRenderer.jsx:48-50 | one write per entry leaves the held map overridden by the entries, errors and flags untouched |
| Renderer.SeedForm | src/components/FormPreview/FormRenderer.jsx:33-52 | for a form with fields, the held map gains the derived-pass output over the seeds (derived fields blank); otherwise it is unchanged |
| Renderer.SeededValues | src/components/FormPreview/FormRenderer.jsx:33-52 | with distinct ids, after seeding each field holds its default, and a derived field holds its value computed from the seeds |
| Renderer.RecomputeEffect | src/components/FormPreview/FormRenderer.jsx:55-67 | for a form with fields and a non-empty value map, the map becomes the derived pass's output; otherwise it is unchanged |
| Renderer.WriteChanged | src/components/FormPreview/FormRenderer.jsx:59-64 | writing only the entries that differ from the snapshot turns the held map into the pass's output |
| Renderer.HandleFieldChange | src/components/FormPreview/FormRenderer.jsx:69-78 | writes the value; only that field's error is removed (when it shows one); every other field's error is as before |
| Renderer.HandleSubmit | src/components/FormPreview/FormRenderer.jsx:80-120 | no form: no change. With errors: the error map becomes exactly them, nothing is submitted and the fix-errors notice shows. Without: errors are emptied, the values go to the handler, and the notice follows its outcome. Submitting is false at the end; submitted values have no message on any non-derived field |
| Renderer.FreshFormBlocksRequired | src/components/FormPreview/FormRenderer.jsx:92-99 | on a freshly shown form, a required non-derived field without a truthy default blocks submit with "<label> is required" |
| ConfigPanel.OptionsForType | src/components/Formbuilder/FieldConfigPanel.jsx:184-190 | a type change leaves one starter option for select and radio and none otherwise |
| ConfigPanel.MapAtSpec | src/components/Formbuilder/FieldConfigPanel.jsx:135-142 | the option `map` replaces exactly the indexed option; an out-of-range index changes nothing |
| ConfigPanel.FilterAtSpec | src/components/Formbuilder/FieldConfigPanel.jsx:144-149 | the option `filter` drops exactly the indexed option, keeping the rest in order; an out-of-range index changes nothing |
| ConfigPanel.ParentChoices | src/components/Formbuilder/FieldConfigPanel.jsx:151-153 | a field that is not derived is offered no parents |
| ConfigPanel.ParentChoicesSpec | src/components/Formbuilder/FieldConfigPanel.jsx:151-153 | the dialog offers only non-derived fields of the kind's parent type, never the field itself, and the last-name list omits the chosen first name |
| ConfigPanel.ValidatorAcceptsSelfReference | src/components/Formbuilder/FieldConfigPanel.jsx:111-116 | the validator accepts a derived date field naming itself as parent, which the dialog never offers |
| ConfigPanel.FreshDerivedConfigRejected | src/components/Formbuilder/FieldConfigPanel.jsx:424-430 | a configuration freshly switched on names no parent and is rejected |
| ConfigPanel.OfferedParentAccepted | src/components/Formbuilder/FieldConfigPanel.jsx:488-491 | with distinct non-empty ids, an age parent picked from the offered list passes the validator |
| ConfigPanel.FieldConfigPanel.constructor | src/components/Formbuilder/FieldConfigPanel.jsx:62-81 | the draft is the edited field, or a blank text field with a fresh id; no errors |
| ConfigPanel.FieldConfigPanel.ValidateConfig | src/components/Formbuilder/FieldConfigPanel.jsx:100-119 | "label" iff the trimmed label is empty; "options" iff a select or radio has no options; "derived" iff a derived draft with a configuration fails the derived validator, holding its message; no other key |
| ConfigPanel.FieldConfigPanel.HandleSave | src/components/Formbuilder/FieldConfigPanel.jsx:83-93 | hands back the draft (and clears the errors) exactly when validation finds nothing; otherwise stores the non-empty errors |
| ConfigPanel.FieldConfigPanel.HandleClose | src/components/Formbuilder/FieldConfigPanel.jsx:95-98 | clears the errors |
| ConfigPanel.FieldConfigPanel.ChangeType | src/components/Formbuilder/FieldConfigPanel.jsx:184-190 | sets the type and the type's starter options, so the options check then passes |
| ConfigPanel.FieldConfigPanel.AddOption | src/components/Formbuilder/FieldConfigPanel.jsx:128-133 | appends an empty option |
| ConfigPanel.FieldConfigPanel.UpdateOption | src/components/Formbuilder/FieldConfigPanel.jsx:135-142 | changes only the indexed option's label or value |
| ConfigPanel.FieldConfigPanel.RemoveOption | src/components/Formbuilder/FieldConfigPanel.jsx:144-149 | removes only the indexed option |
| ConfigPanel.FieldConfigPanel.ToggleDerived | src/components/Formbuilder/FieldConfigPanel.jsx:424-430 | on: an age configuration with no parent; off: no configuration and no offered parents |
| ConfigPanel.FieldConfigPanel.ChangeDerivedKind | src/components/Formbuilder/FieldConfigPanel.jsx:455-463 | sets the kind and clears every parent reference |
| ConfigPanel.FieldConfigPanel.ChooseParent | src/components/Formbuilder/FieldConfigPanel.jsx:488-546 | writes only the chosen reference |
| MyForms.MyFormsState.constructor | src/store/slices/myFormsSlice.js:4-9 | no forms, not loading, no error, nothing selected |
| MyForms.MyFormsState.SetLoading | src/store/slices/myFormsSlice.js:15-17 | sets only the loading flag |
| MyForms.MyFormsState.SetForms | src/store/slices/myFormsSlice.js:19-21 | replaces only the list |
| MyForms.MyFormsState.AddForm | src/store/slices/myFormsSlice.js:23-25 | appends exactly one form |
| MyForms.MyFormsState.UpdateForm | src/store/slices/myFormsSlice.js:27-33 | merges into the first matching form only; an absent id changes nothing |
| MyForms.MyFormsState.DeleteForm | src/store/slices/myFormsSlice.js:35-46 | storage and the list both keep exactly the forms with another id; the selection is nulled iff it was that id; a list that mirrored storage still does |
| MyForms.MyFormsState.LoadForms | src/store/slices/myFormsSlice.js:48-58 | the list becomes the stored list, with no error and not loading |
| MyForms.MyFormsState.SetSelectedForm | src/store/slices/myFormsSlice.js:60-62 | sets only the selection |
| MyForms.MyFormsState.SetError | src/store/slices/myFormsSlice.js:64-66 | sets only the error |
| MyForms.MyFormsState.ClearError | src/store/slices/myFormsSlice.js:68-70 | nulls only the error |

## Left out

- Date parsing: `new Date(value)` is modelled as a strict `YYYY-MM-DD` parser yielding a calendar date. Other formats JavaScript accepts, non-string values and time zones are not modelled. `new Date("YYYY-MM-DD")` is UTC midnight while `getFullYear` and friends read local time. The future-date test compares calendar days, not instants.
- `parseFloat` is modelled as decimal prefixes `[sign] digits [. digits]` read as exact rationals. Exponents, `Infinity` and IEEE rounding are not modelled.
- Storage serialisation: `JSON.stringify` and `JSON.parse` failures and quota errors are not modelled. A stored value that parses to something other than a list of forms is not modelled; a falsy parsed value reads as `[]`, like an absent one.
- `removeFromStorage` (src/store/utils/localStorage.js:22-28) is not modelled: nothing in the core calls it.
- The `try`/`catch` branches of the builder's `saveForm` and of `deleteForm` and `loadForms` in the saved-forms list are not modelled. The storage helpers catch their own errors, so these branches are never reached.
- Console logging, the one-second simulated submit delay, the asynchronous interleaving of React effects and dispatches, and `window.confirm` are not modelled. Each effect and handler runs to completion as one method.
- The submit banner is returned as a `Notice` value rather than kept as component state. The submitted values are returned rather than passed to a callback.
- Renderer.HandleSubmit: the handler's outcome is an input (`NoHandler`, `Resolves`, `Throws(message)`), not a called function.
- Strings are sequences of characters; lengths count characters, not UTF-16 code units.
- The `updateValidation` text inputs that `parseInt` their entries (src/components/Formbuilder/FieldConfigPanel.jsx:121-126) are not modelled. Rule parameters are optional integers, so `NaN` parameters are not modelled.
- The `'mAXDigits'` label typo and the maximum-digits input bound to `minDigits` (src/components/Formbuilder/FieldConfigPanel.jsx:341-347) are rendering details and are not modelled.
- Derived configurations carry every reference attribute, and an absent one reads as `''`. Derived kinds are the three listed kinds plus "none"; arbitrary kind strings are not modelled.
- Ids, `createdAt` and `updatedAt` are parameters instead of `Date.now()` and `new Date().toISOString()`.
- Saved-form updates (`updateForm` in src/store/utils/localStorage.js:46-61 and src/store/slices/myFormsSlice.js:27-33) have no caller in the application. A patch is modelled with only a name and a field list; a patch that overrides `id` or `createdAt` through the spread (or `updatedAt`, in the reducer, where no timestamp follows the spread) is not modelled.
- FormBuilder.FormBuilderState.AddField: requires the payload to name a type. Its only caller (src/pages/Create.jsx:79) passes the configuration dialog's draft, which always has a type. A payload without one would give a field whose type is `undefined` and whose label is "undefined Field"; that case is not modelled.
- FormBuilder.FormBuilderState.ReorderFields: requires both indices in range. Nothing in the application dispatches `reorderFields`. Out-of-range indices are not modelled: `splice` clamps a `dropIndex` equal to the length into an append, and counts a negative index from the end.
- ConfigPanel.FieldConfigPanel.ChangeDerivedKind: requires one of the two kinds the select offers.
- ConfigPanel.FieldConfigPanel.ChooseParent: requires a derived configuration. The parent selects are rendered only when there is one.
- The lemmas about per-field values (Preview.InitialDataValue, Validation.FormErrorsPerField, Derived.RecomputeSetsDerived, Derived.RecomputeChangeFlag, Derived.RecomputeIdempotent, Renderer.SeededValues) assume distinct field ids. With repeated ids the later field wins in a map, and the lemmas do not describe that case.
- The draft configuration `{ id: '' }` that exists before the dialog's initialising effect runs is not modelled. The constructor yields the state after that effect.
- The derived validator checks neither self-reference nor whether a parent is itself derived. The code passes the field's id but the validator ignores it. The model follows the code, and ConfigPanel.ValidatorAcceptsSelfReference records the consequence.
- Create.jsx's add-or-update choice, the field limit of 50 and the page-level name checks are page glue and are not modelled. The limit itself is in the schema constants.

## Findings

| source | as written | input that shows it | evidently intended | confidence | as-written member | corrected member |
|---|---|---|---|---|---|---|
| src/store/slices/formBuilderSlice.js:62-70 | the guard `fieldIndex < state.fields.length - 1` has no `fieldIndex !== -1` test, so `findIndex`'s -1 passes, `fields[-1]` is `undefined` and `splice(-1, 1)` removes the last field | fields `[a, b]` and an id neither carries: the list becomes `[undefined, a]` | an absent id leaves the list unchanged, as in `moveFieldUp` | not executed | FormBuilder.MoveDownAbsentIdLosesField | FormBuilder.FormBuilderState.MoveFieldDown |
