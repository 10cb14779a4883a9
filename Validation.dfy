/**
 * The validation engine: the ordered list of messages for one value against
 * one field definition, the first-message-per-field map for a whole value
 * map, the single-rule predicate, and the form-name check.
 */
module Validation {
  import opened Js
  import opened Schema

  // ----- Emptiness -----

  /** `!value || value.toString().trim() === ''`. */
  predicate IsBlank(v: Value) {
    !Truthy(v) || Trim(ToText(v)) == ""
  }

  /** Blank means absent, `false`, or a string of white space only. */
  lemma BlankValues(v: Value)
    ensures IsBlank(v) <==> v == Missing || v == Bool(false) || (v.Str? && AllSpace(v.s))
  {
    if v.Str? {
      TrimEmptyIffAllSpace(v.s);
    } else if v == Bool(true) {
      assert ToText(v) == "true";
      TrimEmptyIffAllSpace("true");
      assert !IsSpace("true"[0]);
    }
  }

  // ----- Email and password rules -----

  /** No white space and no `@`: the class `[^\s@]`. */
  predicate Plain(s: string) {
    forall k | 0 <= k < |s| :: !IsSpace(s[k]) && s[k] != '@'
  }

  /** A match of `^[^\s@]+@[^\s@]+\.[^\s@]+$`: three non-empty plain runs
      separated by `@` and `.`. */
  predicate MatchesEmailPattern(s: string) {
    exists i, j | 0 < i && i + 1 < j && j + 1 < |s| ::
      s[i] == '@' && s[j] == '.' && Plain(s[..i]) && Plain(s[i + 1..j]) && Plain(s[j + 1..])
  }

  /** The shape the pattern accepts, stated directly. */
  predicate IsEmailShaped(s: string) {
    (forall k | 0 <= k < |s| :: !IsSpace(s[k]))
    && exists i | 0 < i < |s| ::
         s[i] == '@'
         && (forall k | 0 <= k < |s| && k != i :: s[k] != '@')
         && exists j | i + 1 < j < |s| - 1 :: s[j] == '.'
  }

  /** The email pattern accepts exactly the strings without white space that
      hold one `@`, not first, followed by a `.` that is neither the first
      nor the last character after the `@`. */
  lemma EmailPatternCharacterization(s: string)
    ensures MatchesEmailPattern(s) <==> IsEmailShaped(s)
  {
    if MatchesEmailPattern(s) {
      EmailPatternShaped(s);
    }
    if IsEmailShaped(s) {
      EmailShapeMatches(s);
    }
  }

  lemma EmailPatternShaped(s: string)
    requires MatchesEmailPattern(s)
    ensures IsEmailShaped(s)
  {
    var i, j :| 0 < i && i + 1 < j && j + 1 < |s| && s[i] == '@' && s[j] == '.'
      && Plain(s[..i]) && Plain(s[i + 1..j]) && Plain(s[j + 1..]);
    forall k | 0 <= k < |s| && k != i ensures !IsSpace(s[k]) && s[k] != '@' {
      if k < i { assert s[k] == s[..i][k]; }
      else if k < j { assert s[k] == s[i + 1..j][k - i - 1]; }
      else if k > j { assert s[k] == s[j + 1..][k - j - 1]; }
    }
  }

  lemma EmailShapeMatches(s: string)
    requires IsEmailShaped(s)
    ensures MatchesEmailPattern(s)
  {
    var i :| 0 < i < |s| && s[i] == '@' && (forall k | 0 <= k < |s| && k != i :: s[k] != '@')
      && exists j | i + 1 < j < |s| - 1 :: s[j] == '.';
    var j :| i + 1 < j < |s| - 1 && s[j] == '.';
    assert Plain(s[..i]) by {
      forall k | 0 <= k < i ensures !IsSpace(s[..i][k]) && s[..i][k] != '@' { assert s[..i][k] == s[k]; }
    }
    var mid, tail := s[i + 1..j], s[j + 1..];
    assert Plain(mid) by {
      forall k | 0 <= k < |mid| ensures !IsSpace(mid[k]) && mid[k] != '@' { assert mid[k] == s[k + i + 1]; }
    }
    assert Plain(tail) by {
      forall k | 0 <= k < |tail| ensures !IsSpace(tail[k]) && tail[k] != '@' { assert tail[k] == s[k + j + 1]; }
    }
  }

  /** `value.length < 8 || !/\d/.test(value)`; a non-string has no length,
      and the comparison with `undefined` is false. */
  predicate PasswordFails(v: Value) {
    (Length(v).Some? && Length(v).value < 8) || DigitCount(ToText(v)) == 0
  }

  /** On a string, the password rule fails iff it is shorter than eight
      characters or holds no digit. */
  lemma PasswordRule(s: string)
    ensures PasswordFails(Str(s)) <==> |s| < 8 || forall k | 0 <= k < |s| :: !IsDigit(s[k])
  {
    DigitCountPositive(s);
  }

  // ----- The rules after the required check, in evaluation order -----

  datatype Check =
    | EmailCheck | PasswordCheck | MinLengthCheck | MaxLengthCheck
    | NumberCheck | MinValueCheck | MaxValueCheck | MinDigitsCheck | MaxDigitsCheck

  const CheckOrder: seq<Check> := [
    EmailCheck, PasswordCheck, MinLengthCheck, MaxLengthCheck,
    NumberCheck, MinValueCheck, MaxValueCheck, MinDigitsCheck, MaxDigitsCheck]

  /** A numeric parameter that is present and not `0` (JavaScript truthiness). */
  predicate Set(p: Option<int>) {
    p.Some? && p.value != 0
  }

  /** What the rules look at in a value: its string form, its `parseFloat`
      reading, its digit count, and the verdicts of the email pattern and
      of the password rule. */
  datatype Reading = Reading(
    text: string, number: Option<real>, digits: nat, emailOk: bool, passwordBad: bool)

  function Read(v: Value): Reading {
    var text := ToText(v);
    Reading(text, ParseNumber(text), DigitCount(text), MatchesEmailPattern(text), PasswordFails(v))
  }

  /** Whether check `c` reports a violation for a value read as `d` against
      field `f`. */
  predicate Fails(c: Check, d: Reading, f: Field) {
    var r := f.validation;
    match c
    case EmailCheck => r.email && f.ftype == Text && !d.emailOk
    case PasswordCheck => r.password && f.ftype == Text && d.passwordBad
    case MinLengthCheck => Set(r.minLength) && |d.text| < r.minLength.value
    case MaxLengthCheck => Set(r.maxLength) && |d.text| > r.maxLength.value
    case NumberCheck => f.ftype == Number && d.number.None?
    case MinValueCheck =>
      f.ftype == Number && d.number.Some? && r.minValue.Some? && d.number.value < r.minValue.value as real
    case MaxValueCheck =>
      f.ftype == Number && d.number.Some? && r.maxValue.Some? && d.number.value > r.maxValue.value as real
    case MinDigitsCheck => Set(r.minDigits) && d.digits < r.minDigits.value
    case MaxDigitsCheck => Set(r.maxDigits) && d.digits > r.maxDigits.value
  }

  function NotANumberMessage(labelText: string): string {
    labelText + " must be a valid number"
  }

  function MinDigitsMessage(labelText: string, n: int): string {
    labelText + " must contain at least " + IntToString(n) + " digits"
  }

  function MaxDigitsMessage(labelText: string, n: int): string {
    labelText + " must contain no more than " + IntToString(n) + " digits"
  }

  /** The message check `c` pushes for field `f`. */
  function Message(c: Check, f: Field): string {
    var r := f.validation;
    var l := f.labelText;
    match c
    case EmailCheck => EmailMessage
    case PasswordCheck => PasswordMessage
    case MinLengthCheck => MinLengthMessage(l, r.minLength.GetOr(0))
    case MaxLengthCheck => MaxLengthMessage(l, r.maxLength.GetOr(0))
    case NumberCheck => NotANumberMessage(l)
    case MinValueCheck => MinValueMessage(l, r.minValue.GetOr(0))
    case MaxValueCheck => MaxValueMessage(l, r.maxValue.GetOr(0))
    case MinDigitsCheck => MinDigitsMessage(l, r.minDigits.GetOr(0))
    case MaxDigitsCheck => MaxDigitsMessage(l, r.maxDigits.GetOr(0))
  }

  /** The messages of the failing checks among the first `n` of
      `CheckOrder`, in that order. */
  function Report(d: Reading, f: Field, n: nat): (r: seq<string>)
    requires n <= |CheckOrder|
    ensures |r| <= n
  {
    if n == 0 then []
    else
      var earlier := Report(d, f, n - 1);
      var c := CheckOrder[n - 1];
      if Fails(c, d, f) then earlier + [Message(c, f)] else earlier
  }

  /** One more check appends its message exactly when it fails. */
  lemma ReportStep(d: Reading, f: Field, n: nat)
    requires n < |CheckOrder|
    ensures Report(d, f, n + 1) == if Fails(CheckOrder[n], d, f) then Report(d, f, n) + [Message(CheckOrder[n], f)] else Report(d, f, n)
  {
  }

  /** There is no message exactly when every check passes, and every
      failing check contributes its message. */
  lemma {:induction false} ReportComplete(d: Reading, f: Field, n: nat)
    requires n <= |CheckOrder|
    ensures Report(d, f, n) == [] <==> forall k | 0 <= k < n :: !Fails(CheckOrder[k], d, f)
    ensures forall k | 0 <= k < n && Fails(CheckOrder[k], d, f) :: Message(CheckOrder[k], f) in Report(d, f, n)
  {
    if n > 0 {
      ReportComplete(d, f, n - 1);
    }
  }

  /** The messages `validateField` returns, as a specification. */
  function FieldMessages(v: Value, f: Field): seq<string> {
    if f.required && IsBlank(v) then [RequiredMessage(f.labelText)]
    else if IsBlank(v) then []
    else Report(Read(v), f, |CheckOrder|)
  }

  /** `validateField`: the required check short-circuits; otherwise every
      applicable rule pushes its message in the fixed order. */
  method ValidateField(value: Value, field: Field) returns (errors: seq<string>)
    ensures errors == FieldMessages(value, field)
  {
    errors := [];
    if field.required && IsBlank(value) {
      errors := errors + [RequiredMessage(field.labelText)];
      return;
    }
    if IsBlank(value) {
      return;
    }
    ghost var d := Read(value);
    errors := FormatRuleMessages(value, field, d);
    errors := LengthRuleMessages(value, field, d, errors);
    errors := NumberRuleMessages(value, field, d, errors);
    errors := DigitRuleMessages(value, field, d, errors);
  }

  /** The email and password checks of `validateField`; `d` is the reading
      of `value` as far as these checks look at it. */
  method FormatRuleMessages(value: Value, field: Field, ghost d: Reading) returns (errors: seq<string>)
    requires d.emailOk == MatchesEmailPattern(ToText(value)) && d.passwordBad == PasswordFails(value)
    ensures errors == Report(d, field, 2)
  {
    var rules := field.validation;
    assert CheckOrder[0] == EmailCheck && CheckOrder[1] == PasswordCheck;
    errors := [];
    ReportStep(d, field, 0);
    if rules.email && field.ftype == Text {
      if !MatchesEmailPattern(ToText(value)) {
        errors := errors + [EmailMessage];
      }
    }
    ReportStep(d, field, 1);
    if rules.password && field.ftype == Text {
      if PasswordFails(value) {
        errors := errors + [PasswordMessage];
      }
    }
  }

  /** The length checks of `validateField`, appended to the earlier messages. */
  method LengthRuleMessages(value: Value, field: Field, ghost d: Reading, earlier: seq<string>)
    returns (errors: seq<string>)
    requires d.text == ToText(value)
    requires earlier == Report(d, field, 2)
    ensures errors == Report(d, field, 4)
  {
    var rules := field.validation;
    var text := ToText(value);
    assert CheckOrder[2] == MinLengthCheck && CheckOrder[3] == MaxLengthCheck;
    errors := earlier;
    ReportStep(d, field, 2);
    if Set(rules.minLength) && |text| < rules.minLength.value {
      errors := errors + [MinLengthMessage(field.labelText, rules.minLength.value)];
    }
    ReportStep(d, field, 3);
    if Set(rules.maxLength) && |text| > rules.maxLength.value {
      errors := errors + [MaxLengthMessage(field.labelText, rules.maxLength.value)];
    }
  }

  /** The number checks of `validateField`, appended to the earlier messages. */
  method NumberRuleMessages(value: Value, field: Field, ghost d: Reading, earlier: seq<string>)
    returns (errors: seq<string>)
    requires d.number == ParseNumber(ToText(value))
    requires earlier == Report(d, field, 4)
    ensures errors == Report(d, field, 7)
  {
    var rules := field.validation;
    assert CheckOrder[4] == NumberCheck && CheckOrder[5] == MinValueCheck && CheckOrder[6] == MaxValueCheck;
    ReportStep(d, field, 4);
    ReportStep(d, field, 5);
    ReportStep(d, field, 6);
    errors := earlier;
    if field.ftype == Number {
      var number := ParseNumber(ToText(value));
      if number.None? {
        errors := errors + [NotANumberMessage(field.labelText)];
      } else {
        if rules.minValue.Some? && number.value < rules.minValue.value as real {
          errors := errors + [MinValueMessage(field.labelText, rules.minValue.value)];
        }
        assert errors == Report(d, field, 6);
        if rules.maxValue.Some? && number.value > rules.maxValue.value as real {
          errors := errors + [MaxValueMessage(field.labelText, rules.maxValue.value)];
        }
      }
    }
  }

  /** The digit-count checks of `validateField`, appended to the earlier messages. */
  method DigitRuleMessages(value: Value, field: Field, ghost d: Reading, earlier: seq<string>)
    returns (errors: seq<string>)
    requires d.digits == DigitCount(ToText(value))
    requires earlier == Report(d, field, 7)
    ensures errors == Report(d, field, 9)
  {
    var rules := field.validation;
    assert CheckOrder[7] == MinDigitsCheck && CheckOrder[8] == MaxDigitsCheck;
    errors := earlier;
    if Set(rules.minDigits) || Set(rules.maxDigits) {
      var digitCount := DigitCount(ToText(value));
      ReportStep(d, field, 7);
      if Set(rules.minDigits) && digitCount < rules.minDigits.value {
        errors := errors + [MinDigitsMessage(field.labelText, rules.minDigits.value)];
      }
      ReportStep(d, field, 8);
      if Set(rules.maxDigits) && digitCount > rules.maxDigits.value {
        errors := errors + [MaxDigitsMessage(field.labelText, rules.maxDigits.value)];
      }
    } else {
      ReportStep(d, field, 7);
      ReportStep(d, field, 8);
    }
  }

  // ----- Properties of validateField -----

  /** A required field with a blank value gets exactly the required message,
      and a blank value of an optional field gets no message at all. */
  lemma BlankValueMessages(v: Value, f: Field)
    requires v == Missing || v == Bool(false) || (v.Str? && AllSpace(v.s))
    ensures f.required ==> FieldMessages(v, f) == [f.labelText + " is required"]
    ensures !f.required ==> FieldMessages(v, f) == []
  {
    BlankValues(v);
  }

  /** When a non-blank value has messages, the first one belongs to the
      earliest failing check in the order email, password, minLength,
      maxLength, number, minValue, maxValue, minDigits, maxDigits. */
  lemma FirstMessageIsEarliestFailure(v: Value, f: Field)
    requires !IsBlank(v) && FieldMessages(v, f) != []
    ensures exists k | 0 <= k < |CheckOrder| ::
      Fails(CheckOrder[k], Read(v), f)
      && FieldMessages(v, f)[0] == Message(CheckOrder[k], f)
      && forall j | 0 <= j < k :: !Fails(CheckOrder[j], Read(v), f)
  {
    var k := EarliestFailing(Read(v), f, |CheckOrder|);
  }

  lemma {:induction false} EarliestFailing(d: Reading, f: Field, n: nat) returns (k: nat)
    requires n <= |CheckOrder| && Report(d, f, n) != []
    ensures k < n && Fails(CheckOrder[k], d, f) && Report(d, f, n)[0] == Message(CheckOrder[k], f)
    ensures forall j | 0 <= j < k :: !Fails(CheckOrder[j], d, f)
  {
    if Report(d, f, n - 1) != [] {
      k := EarliestFailing(d, f, n - 1);
    } else {
      ReportComplete(d, f, n - 1);
      k := n - 1;
    }
  }

  /** For a number field, an unparsable value reports "must be a valid
      number" and neither bound is checked. */
  lemma NotANumberSkipsBounds(v: Value, f: Field)
    requires f.ftype == Number && !IsBlank(v) && ParseNumber(ToText(v)).None?
    ensures f.labelText + " must be a valid number" in FieldMessages(v, f)
    ensures !Fails(MinValueCheck, Read(v), f) && !Fails(MaxValueCheck, Read(v), f)
  {
    var d := Read(v);
    assert d.number.None?;
    NotANumberReport(d, f);
  }

  lemma NotANumberReport(d: Reading, f: Field)
    requires f.ftype == Number && d.number.None?
    ensures NotANumberMessage(f.labelText) in Report(d, f, |CheckOrder|)
    ensures !Fails(MinValueCheck, d, f) && !Fails(MaxValueCheck, d, f)
  {
    assert CheckOrder[4] == NumberCheck && Fails(NumberCheck, d, f);
    ReportComplete(d, f, |CheckOrder|);
  }

  /** The digit rule counts digit characters only: on a text field whose
      only rule is a minimum digit count `n`, a non-blank value gets exactly
      the "at least n digits" message when it holds fewer than `n` digits
      (so with `n` = 4, "12a3" fails and "12a34" passes). */
  lemma MinDigitsOnly(v: Value, f: Field, n: int)
    requires f.validation == NoRules.(minDigits := Some(n)) && n != 0 && f.ftype == Text && !IsBlank(v)
    ensures FieldMessages(v, f) ==
      if DigitCount(ToText(v)) < n then [f.labelText + " must contain at least " + IntToString(n) + " digits"] else []
    ensures DigitCount("12a3") == 3 && DigitCount("12a34") == 4
  {
    var d := Read(v);
    assert d.digits == DigitCount(ToText(v));
    MinDigitsReport(d, f, n);
    assert "12a34"[1..] == "2a34" && "2a34"[1..] == "a34" && "a34"[1..] == "34" && "34"[1..] == "4";
  }

  lemma MinDigitsReport(d: Reading, f: Field, n: int)
    requires f.validation == NoRules.(minDigits := Some(n)) && n != 0 && f.ftype == Text
    ensures Report(d, f, |CheckOrder|) == if d.digits < n then [MinDigitsMessage(f.labelText, n)] else []
  {
    assert CheckOrder[7] == MinDigitsCheck && CheckOrder[8] == MaxDigitsCheck;
    NoCheckBeforeDigits(d, f);
    assert Report(d, f, 9) == Report(d, f, 8);
  }

  /** A text field with only a digit rule passes the first seven checks. */
  lemma NoCheckBeforeDigits(d: Reading, f: Field)
    requires f.validation.(minDigits := None, maxDigits := None) == NoRules && f.ftype == Text
    ensures Report(d, f, 7) == []
  {
    assert Report(d, f, 1) == [];
    assert Report(d, f, 2) == [];
    assert Report(d, f, 3) == [];
    assert Report(d, f, 4) == [];
    assert Report(d, f, 5) == [];
    assert Report(d, f, 6) == [];
  }

  // ----- validateForm -----

  /** The map `validateForm` builds over the first `|fs|` fields. */
  function FormErrors(data: map<string, Value>, fs: seq<Field>): map<string, string>
    decreases |fs|
  {
    if fs == [] then map[]
    else
      var errs := FormErrors(data, fs[..|fs| - 1]);
      var f := fs[|fs| - 1];
      var msgs := FieldMessages(Lookup(data, f.id), f);
      if !f.isDerived && msgs != [] then errs[f.id := msgs[0]] else errs
  }

  /** `validateForm`: one pass over the fields, keeping the first message of
      every non-derived field that has one. */
  method ValidateForm(formData: map<string, Value>, fields: seq<Field>) returns (errors: map<string, string>)
    ensures errors == FormErrors(formData, fields)
  {
    errors := map[];
    for i := 0 to |fields|
      invariant errors == FormErrors(formData, fields[..i])
    {
      assert fields[..i + 1][..i] == fields[..i];
      var field := fields[i];
      if !field.isDerived {
        var fieldErrors := ValidateField(Lookup(formData, field.id), field);
        if |fieldErrors| > 0 {
          errors := errors[field.id := fieldErrors[0]];
        }
      }
    }
    assert fields[..|fields|] == fields;
  }

  /** A key is present exactly when some non-derived field with that id has
      a message. */
  lemma {:induction false} FormErrorsDomain(data: map<string, Value>, fs: seq<Field>, k: string)
    ensures k in FormErrors(data, fs) <==>
      exists i | 0 <= i < |fs| ::
        fs[i].id == k && !fs[i].isDerived && FieldMessages(Lookup(data, k), fs[i]) != []
  {
    if fs != [] {
      var init := fs[..|fs| - 1];
      FormErrorsDomain(data, init, k);
      assert forall i | 0 <= i < |init| :: init[i] == fs[i];
    }
  }

  /** With distinct ids, each field's entry is present iff it is not derived
      and has a message, and then it is that field's first message; so a
      derived field never has an entry. */
  lemma {:induction false} FormErrorsPerField(data: map<string, Value>, fs: seq<Field>, i: nat)
    requires UniqueIds(fs) && i < |fs|
    ensures var msgs := FieldMessages(Lookup(data, fs[i].id), fs[i]);
      && (fs[i].id in FormErrors(data, fs) <==> !fs[i].isDerived && msgs != [])
      && (fs[i].id in FormErrors(data, fs) ==> FormErrors(data, fs)[fs[i].id] == msgs[0])
  {
    var init := fs[..|fs| - 1];
    assert forall j | 0 <= j < |init| :: init[j] == fs[j];
    if i < |fs| - 1 {
      assert UniqueIds(init);
      FormErrorsPerField(data, init, i);
    } else {
      FormErrorsDomain(data, init, fs[i].id);
    }
  }

  // ----- Helpers over an error map -----

  /** `hasValidationErrors`. */
  function HasValidationErrors(errors: map<string, string>): (r: bool)
    ensures r <==> exists k :: k in errors
  {
    assert (exists k :: k in errors) ==> |errors| > 0 by {
      if exists k :: k in errors {
        var k :| k in errors;
        assert k in errors.Keys;
      }
    }
    |errors| > 0
  }

  /** `getFieldError`: the message, or null when absent or empty. */
  function GetFieldError(fieldId: string, errors: map<string, string>): (r: Option<string>)
    ensures r.Some? <==> fieldId in errors && errors[fieldId] != ""
    ensures r.Some? ==> r.value == errors[fieldId]
  {
    if fieldId in errors && errors[fieldId] != "" then Some(errors[fieldId]) else None
  }

  // ----- validateRule -----

  datatype RuleName =
    | MinLengthRule | MaxLengthRule | MinValueRule | MaxValueRule
    | MinDigitsRule | MaxDigitsRule | EmailRule | PasswordRule | OtherRule

  /** `validateRule(rule, value, ruleValue)`. */
  function ValidateRule(rule: RuleName, v: Value, ruleValue: int): bool {
    var text := ToText(v);
    var number := ParseNumber(text);
    match rule
    case MinLengthRule => !Truthy(v) || |text| >= ruleValue
    case MaxLengthRule => !Truthy(v) || |text| <= ruleValue
    case MinValueRule => !Truthy(v) || (number.Some? && number.value >= ruleValue as real)
    case MaxValueRule => !Truthy(v) || (number.Some? && number.value <= ruleValue as real)
    case MinDigitsRule => !Truthy(v) || DigitCount(text) >= ruleValue
    case MaxDigitsRule => !Truthy(v) || DigitCount(text) <= ruleValue
    case EmailRule => !Truthy(v) || MatchesEmailPattern(text)
    case PasswordRule => !Truthy(v) || (Length(v).Some? && Length(v).value >= 8 && DigitCount(text) > 0)
    case OtherRule => true
  }

  /** An optional field carrying only `rule` with parameter `n`: a number
      field for the value bounds, a text field otherwise. */
  function SingleRuleField(rule: RuleName, n: int): Field {
    var rules :=
      match rule
      case MinLengthRule => NoRules.(minLength := Some(n))
      case MaxLengthRule => NoRules.(maxLength := Some(n))
      case MinValueRule => NoRules.(minValue := Some(n))
      case MaxValueRule => NoRules.(maxValue := Some(n))
      case MinDigitsRule => NoRules.(minDigits := Some(n))
      case MaxDigitsRule => NoRules.(maxDigits := Some(n))
      case EmailRule => NoRules.(email := true)
      case PasswordRule => NoRules.(password := true)
      case OtherRule => NoRules;
    var kind := if rule in {MinValueRule, MaxValueRule} then Number else Text;
    Field("field", kind, "Field", false, Str(""), rules, false, None, [])
  }

  /** None of the nine checks fails. */
  predicate NoCheckFails(d: Reading, f: Field) {
    !Fails(EmailCheck, d, f) && !Fails(PasswordCheck, d, f)
    && !Fails(MinLengthCheck, d, f) && !Fails(MaxLengthCheck, d, f)
    && !Fails(NumberCheck, d, f) && !Fails(MinValueCheck, d, f) && !Fails(MaxValueCheck, d, f)
    && !Fails(MinDigitsCheck, d, f) && !Fails(MaxDigitsCheck, d, f)
  }

  /** "Every check passes", spelled out check by check. */
  lemma AllChecksPass(d: Reading, f: Field)
    ensures (forall k | 0 <= k < |CheckOrder| :: !Fails(CheckOrder[k], d, f)) <==> NoCheckFails(d, f)
  {
    assert CheckOrder[0] == EmailCheck && CheckOrder[1] == PasswordCheck
      && CheckOrder[2] == MinLengthCheck && CheckOrder[3] == MaxLengthCheck
      && CheckOrder[4] == NumberCheck && CheckOrder[5] == MinValueCheck
      && CheckOrder[6] == MaxValueCheck && CheckOrder[7] == MinDigitsCheck
      && CheckOrder[8] == MaxDigitsCheck;
  }

  /** The single-rule predicate agrees with the field validator: for a value
      that is not white space only, a rule passes exactly when validating an
      optional field that carries only that rule yields no message. (For the
      upper bounds on length and digits a parameter of `0` means "no rule" to
      the field validator, so it is excluded.) */
  lemma ValidateRuleAgreesWithValidateField(rule: RuleName, v: Value, n: int)
    requires Truthy(v) ==> Trim(ToText(v)) != ""
    requires rule in {MaxLengthRule, MaxDigitsRule} ==> n != 0
    ensures ValidateRule(rule, v, n) <==> FieldMessages(v, SingleRuleField(rule, n)) == []
  {
    var f := SingleRuleField(rule, n);
    if IsBlank(v) {
      assert !Truthy(v) && FieldMessages(v, f) == [];
    } else {
      var d := Read(v);
      assert FieldMessages(v, f) == Report(d, f, |CheckOrder|);
      ReportComplete(d, f, |CheckOrder|);
      AllChecksPass(d, f);
      SingleRuleVerdict(rule, v, n);
    }
  }

  /** What the checks of a single-rule field demand of a reading. */
  predicate RulePasses(rule: RuleName, d: Reading, n: int) {
    match rule
    case MinLengthRule => |d.text| >= n
    case MaxLengthRule => n == 0 || |d.text| <= n
    case MinValueRule => d.number.Some? && d.number.value >= n as real
    case MaxValueRule => d.number.Some? && d.number.value <= n as real
    case MinDigitsRule => d.digits >= n
    case MaxDigitsRule => n == 0 || d.digits <= n
    case EmailRule => d.emailOk
    case PasswordRule => !d.passwordBad
    case OtherRule => true
  }

  /** The nine checks of a single-rule field reduce to that rule's own test. */
  lemma SingleRuleChecks(rule: RuleName, d: Reading, n: int)
    ensures NoCheckFails(d, SingleRuleField(rule, n)) <==> RulePasses(rule, d, n)
  {
    var f := SingleRuleField(rule, n);
    match rule
    case MinLengthRule =>
      assert f.validation == NoRules.(minLength := Some(n)) && f.ftype == Text;
    case MaxLengthRule =>
      assert f.validation == NoRules.(maxLength := Some(n)) && f.ftype == Text;
    case MinValueRule =>
      assert f.validation == NoRules.(minValue := Some(n)) && f.ftype == Number;
    case MaxValueRule =>
      assert f.validation == NoRules.(maxValue := Some(n)) && f.ftype == Number;
    case MinDigitsRule =>
      assert f.validation == NoRules.(minDigits := Some(n)) && f.ftype == Text;
    case MaxDigitsRule =>
      assert f.validation == NoRules.(maxDigits := Some(n)) && f.ftype == Text;
    case EmailRule =>
      assert f.validation == NoRules.(email := true) && f.ftype == Text;
    case PasswordRule =>
      assert f.validation == NoRules.(password := true) && f.ftype == Text;
    case OtherRule =>
      assert f.validation == NoRules && f.ftype == Text;
  }

  /** On a truthy value, the single-rule predicate holds exactly when every
      check of the single-rule field passes. */
  lemma SingleRuleVerdict(rule: RuleName, v: Value, n: int)
    requires Truthy(v)
    requires rule in {MaxLengthRule, MaxDigitsRule} ==> n != 0
    ensures ValidateRule(rule, v, n) <==> NoCheckFails(Read(v), SingleRuleField(rule, n))
  {
    var d := Read(v);
    SingleRuleChecks(rule, d, n);
    assert d.text == ToText(v) && d.number == ParseNumber(ToText(v)) && d.digits == DigitCount(ToText(v));
    assert d.emailOk == MatchesEmailPattern(ToText(v)) && d.passwordBad == PasswordFails(v);
    if v == Bool(true) {
      assert DigitCount(ToText(v)) == 0 by {
        assert ToText(v) == "true";
        assert "true"[1..] == "rue" && "rue"[1..] == "ue" && "ue"[1..] == "e" && "e"[1..] == "";
      }
    }
  }

  // ----- validateFormName -----

  /** `validateFormName`. */
  function FormNameErrors(name: string): (r: seq<string>)
    ensures |r| <= 1
    ensures r == [] <==> Trim(name) != "" && MinFormNameLength <= |name| <= MaxFormNameLength
    ensures r == ["Form name is required"] <==> Trim(name) == ""
    ensures "Form name must be at least 1 character" !in r
  {
    if name == "" || Trim(name) == "" then ["Form name is required"]
    else
      assert TooLongName[10] != "Form name is required"[10];
      assert [TooLongName][0] != ["Form name is required"][0];
      (if |name| < 1 then ["Form name must be at least 1 character"] else [])
      + (if |name| > 100 then [TooLongName] else [])
  }

  const TooLongName: string := "Form name must be no more than 100 characters"
}
