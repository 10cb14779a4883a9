/**
 * The derivation engine: the value of a derived field (age from a date of
 * birth, full name from a first and a last name), the pass that refreshes
 * every derived entry of a value map and reports whether anything changed,
 * the choice of eligible parent fields, and the check of a derived
 * configuration. "Today" is a parameter.
 */
module Derived {
  import opened Js
  import opened Schema
  import opened Keyed

  // ----- Calendar dates -----

  /** A day of the proleptic Gregorian calendar; `month` runs from 1 to 12. */
  datatype CivilDate = CivilDate(year: int, month: int, day: int)

  predicate IsLeapYear(y: int) {
    (y % 4 == 0 && y % 100 != 0) || y % 400 == 0
  }

  function DaysInMonth(y: int, m: int): (n: int)
    requires 1 <= m <= 12
    ensures 28 <= n <= 31
    ensures n == 29 <==> m == 2 && IsLeapYear(y)
  {
    if m == 2 then (if IsLeapYear(y) then 29 else 28)
    else if m == 4 || m == 6 || m == 9 || m == 11 then 30
    else 31
  }

  predicate ValidDate(d: CivilDate) {
    1 <= d.month <= 12 && 1 <= d.day <= DaysInMonth(d.year, d.month)
  }

  /** `a` is a strictly earlier day than `b`. */
  predicate Before(a: CivilDate, b: CivilDate) {
    a.year < b.year
    || (a.year == b.year && (a.month < b.month || (a.month == b.month && a.day < b.day)))
  }

  predicate AllDigits(s: string) {
    forall k | 0 <= k < |s| :: IsDigit(s[k])
  }

  /** `new Date(s)` for a date-only ISO string `YYYY-MM-DD` naming a real day;
      `None` stands for an invalid date. */
  function ParseIsoDate(s: string): (r: Option<CivilDate>)
    ensures r.Some? ==> ValidDate(r.value) && r.value.year >= 0
  {
    if |s| == 10 && s[4] == '-' && s[7] == '-'
      && AllDigits(s[..4]) && AllDigits(s[5..7]) && AllDigits(s[8..])
    then
      var d := CivilDate(DigitsValue(s[..4]), DigitsValue(s[5..7]), DigitsValue(s[8..]));
      if ValidDate(d) then Some(d) else None
    else None
  }

  /** Two decimal digits, with a leading zero. */
  function TwoDigits(n: int): (r: string)
    requires 0 <= n < 100
    ensures |r| == 2 && AllDigits(r) && DigitsValue(r) == n
  {
    var r := [DigitChar(n / 10), DigitChar(n % 10)];
    assert r[..1] == [DigitChar(n / 10)] && r[..1][..0] == [];
    assert DigitsValue(r[..1]) == n / 10;
    r
  }

  /** The `YYYY-MM-DD` text a date input produces for a day. */
  function FormatIsoDate(d: CivilDate): (s: string)
    requires ValidDate(d) && 0 <= d.year <= 9999
    ensures |s| == 10
  {
    TwoDigits(d.year / 100) + TwoDigits(d.year % 100) + "-" + TwoDigits(d.month) + "-" + TwoDigits(d.day)
  }

  /** The pieces of `a-b-c` with a four-character `a` and two-character
      `b` and `c` sit where the parser looks for them. */
  lemma IsoLayout(a: string, b: string, c: string)
    requires |a| == 4 && |b| == 2 && |c| == 2
    ensures var s := a + "-" + b + "-" + c;
      |s| == 10 && s[4] == '-' && s[7] == '-' && s[..4] == a && s[5..7] == b && s[8..] == c
  {
  }

  /** The four year digits read back as the year. */
  lemma YearDigits(y: int)
    requires 0 <= y <= 9999
    ensures AllDigits(TwoDigits(y / 100) + TwoDigits(y % 100))
    ensures DigitsValue(TwoDigits(y / 100) + TwoDigits(y % 100)) == y
  {
    var hi, lo := TwoDigits(y / 100), TwoDigits(y % 100);
    DigitsValueAppend(hi, lo);
    assert Pow10(2) == 100;
    forall k | 0 <= k < 4 ensures IsDigit((hi + lo)[k]) {
      if k >= 2 { assert (hi + lo)[k] == lo[k - 2]; }
    }
  }

  /** Parsing the text of a date input gives back the day it names. */
  lemma IsoDateRoundTrip(d: CivilDate)
    requires ValidDate(d) && 0 <= d.year <= 9999
    ensures ParseIsoDate(FormatIsoDate(d)) == Some(d)
  {
    var year, mm, dd := TwoDigits(d.year / 100) + TwoDigits(d.year % 100), TwoDigits(d.month), TwoDigits(d.day);
    IsoLayout(year, mm, dd);
    YearDigits(d.year);
    assert FormatIsoDate(d) == year + "-" + mm + "-" + dd;
  }

  /** The value read as a date: only strings parse. */
  function ParseDate(v: Value): Option<CivilDate> {
    if v.Str? then ParseIsoDate(v.s) else None
  }

  // ----- Age -----

  /** `today.getFullYear() - birth.getFullYear()`, less one when today's
      (month, day) comes before the birthday's. */
  function CompletedYears(birth: CivilDate, today: CivilDate): int {
    var age := today.year - birth.year;
    if today.month < birth.month || (today.month == birth.month && today.day < birth.day) then age - 1
    else age
  }

  /** The `n`-th birthday (ordered as a (year, month, day) triple even when
      it falls on a 29 February that does not exist). */
  function Anniversary(birth: CivilDate, n: int): CivilDate {
    CivilDate(birth.year + n, birth.month, birth.day)
  }

  /** For a birth date not after today, the computed age is the number of
      birthdays already reached: never negative, the last counted birthday
      is not after today, and the next one is. */
  lemma AgeIsCompletedYears(birth: CivilDate, today: CivilDate)
    requires !Before(today, birth)
    ensures var n := CompletedYears(birth, today);
      n >= 0 && !Before(today, Anniversary(birth, n)) && Before(today, Anniversary(birth, n + 1))
  {
  }

  /** `calculateAgeFromDOB`: empty when the parent value is falsy, not a
      date, or after today; otherwise the age in whole years. */
  function AgeFromDob(parentField: string, data: map<string, Value>, today: CivilDate): string {
    var v := Lookup(data, parentField);
    if !Truthy(v) then ""
    else
      match ParseDate(v)
      case None => ""
      case Some(birth) =>
        if Before(today, birth) then ""
        else
          var age := CompletedYears(birth, today);
          if age >= 0 then IntToString(age) else ""
  }

  /** The age is empty exactly for a falsy, unparsable or future birth date;
      otherwise it is the decimal count of completed years (the negative
      guard never fires). */
  lemma AgeFromDobCases(parentField: string, data: map<string, Value>, today: CivilDate)
    ensures var v := Lookup(data, parentField);
      var birth := ParseDate(v);
      && (AgeFromDob(parentField, data, today) == "" <==>
            !Truthy(v) || birth.None? || Before(today, birth.value))
      && (Truthy(v) && birth.Some? && !Before(today, birth.value) ==>
            CompletedYears(birth.value, today) >= 0
            && AgeFromDob(parentField, data, today) == NatToString(CompletedYears(birth.value, today)))
  {
    var v := Lookup(data, parentField);
    if Truthy(v) && ParseDate(v).Some? && !Before(today, ParseDate(v).value) {
      AgeIsCompletedYears(ParseDate(v).value, today);
    }
  }

  /** Born 2000-06-15: the day before the 24th birthday the age is 23, on
      the birthday it is 24. */
  lemma AgeAroundBirthday()
    ensures CompletedYears(CivilDate(2000, 6, 15), CivilDate(2024, 6, 14)) == 23
    ensures CompletedYears(CivilDate(2000, 6, 15), CivilDate(2024, 6, 15)) == 24
    ensures NatToString(23) == "23" && NatToString(24) == "24"
    ensures var data := map["dob" := Str(FormatIsoDate(CivilDate(2000, 6, 15)))];
      AgeFromDob("dob", data, CivilDate(2024, 6, 14)) == "23"
      && AgeFromDob("dob", data, CivilDate(2024, 6, 15)) == "24"
  {
    var data := map["dob" := Str(FormatIsoDate(CivilDate(2000, 6, 15)))];
    IsoDateRoundTrip(CivilDate(2000, 6, 15));
    assert Lookup(data, "dob") == Str(FormatIsoDate(CivilDate(2000, 6, 15)));
    AgeFromDobCases("dob", data, CivilDate(2024, 6, 14));
    AgeFromDobCases("dob", data, CivilDate(2024, 6, 15));
    assert NatToString(2) == ['2'];
    assert NatToString(23) == ['2', '3'];
    assert NatToString(24) == ['2', '4'];
  }

  // ----- Full name -----

  /** `` `${first || ''} ${last || ''}`.trim() ``. */
  function FullNameOf(firstField: string, lastField: string, data: map<string, Value>): string {
    Trim(TextOrEmpty(Lookup(data, firstField)) + " " + TextOrEmpty(Lookup(data, lastField)))
  }

  /** Joining with one space and trimming: an empty part leaves the other
      part trimmed, with no stray space. */
  lemma {:induction false} JoinTrimmed(a: string, b: string)
    ensures a == "" ==> Trim(a + " " + b) == Trim(b)
    ensures b == "" ==> Trim(a + " " + b) == Trim(a)
    ensures (|a| > 0 && !IsSpace(a[0]) && !IsSpace(a[|a| - 1]) && |b| > 0 && !IsSpace(b[0]) && !IsSpace(b[|b| - 1]))
      ==> Trim(a + " " + b) == a + " " + b
  {
    assert AllSpace(" ") by { assert IsSpace(" "[0]); }
    if a == "" {
      assert a + " " + b == " " + b;
      TrimStartAppend(" ", b);
    }
    if b == "" {
      var t := TrimStart(a);
      assert a + " " + b == a + " ";
      TrimStartAppend(a, " ");
      if AllSpace(a) {
        TrimEmptyIffAllSpace(a);
        assert TrimStart(" ") == "";
      } else {
        TrimEndAppend(t, " ");
      }
    }
    if |a| > 0 && !IsSpace(a[0]) && !IsSpace(a[|a| - 1]) && |b| > 0 && !IsSpace(b[0]) && !IsSpace(b[|b| - 1]) {
      var s := a + " " + b;
      assert s[0] == a[0] && s[|s| - 1] == b[|b| - 1];
      TrimStartOfSpaceFree(s);
      TrimEndOfSpaceFree(s);
    }
  }

  /** Both parts empty give the empty name; one empty part gives the other
      part, trimmed. */
  lemma FullNameParts(firstField: string, lastField: string, data: map<string, Value>)
    ensures var first, last := Lookup(data, firstField), Lookup(data, lastField);
      && (!Truthy(first) && !Truthy(last) ==> FullNameOf(firstField, lastField, data) == "")
      && (!Truthy(first) ==> FullNameOf(firstField, lastField, data) == Trim(ToText(last)) || !Truthy(last))
      && (!Truthy(last) ==> FullNameOf(firstField, lastField, data) == Trim(ToText(first)) || !Truthy(first))
  {
    var a, b := TextOrEmpty(Lookup(data, firstField)), TextOrEmpty(Lookup(data, lastField));
    JoinTrimmed(a, b);
    assert Trim("") == "";
  }

  // ----- The value of a derived field -----

  /** `calculateDerivedValue` with the clock reading `today`. */
  function DerivedValue(f: Field, data: map<string, Value>, today: CivilDate): string {
    if !f.isDerived || f.derivedConfig.None? then ""
    else
      var c := f.derivedConfig.value;
      match c.kind
      case AgeFromDob => AgeFromDob(c.parentField, data, today)
      case FullName => FullNameOf(c.firstNameField, c.lastNameField, data)
      case _ => ""
  }

  /** The keys of the value map a derived field's value depends on. */
  function Reads(f: Field): set<string> {
    if !f.isDerived || f.derivedConfig.None? then {}
    else
      var c := f.derivedConfig.value;
      match c.kind
      case AgeFromDob => {c.parentField}
      case FullName => {c.firstNameField, c.lastNameField}
      case _ => {}
  }

  /** A field that is not derived, has no configuration or has a kind
      without a calculation has the empty value; otherwise the value depends
      only on the entries the configuration names. */
  lemma DerivedValueLocal(f: Field, m1: map<string, Value>, m2: map<string, Value>, today: CivilDate)
    requires forall k | k in Reads(f) :: Lookup(m1, k) == Lookup(m2, k)
    ensures DerivedValue(f, m1, today) == DerivedValue(f, m2, today)
    ensures Reads(f) == {} ==> DerivedValue(f, m1, today) == ""
  {
  }

  // ----- updateDerivedFields -----

  /** The map and the change flag after the pass has visited the fields
      `fs`: each derived field's value, computed from the INPUT map `data`,
      is written when it differs strictly from the entry present. */
  function Recompute(data: map<string, Value>, fs: seq<Field>, today: CivilDate): (map<string, Value>, bool)
    decreases |fs|
  {
    if fs == [] then (data, false)
    else
      var prior := Recompute(data, fs[..|fs| - 1], today);
      var f := fs[|fs| - 1];
      var v := Str(DerivedValue(f, data, today));
      if f.isDerived && Lookup(prior.0, f.id) != v then (prior.0[f.id := v], true) else prior
  }

  /** `updateDerivedFields(formData, fields)`. */
  method UpdateDerivedFields(formData: map<string, Value>, fields: seq<Field>, today: CivilDate)
    returns (updatedData: map<string, Value>, hasChanges: bool)
    ensures (updatedData, hasChanges) == Recompute(formData, fields, today)
  {
    updatedData := formData;
    hasChanges := false;
    for i := 0 to |fields|
      invariant (updatedData, hasChanges) == Recompute(formData, fields[..i], today)
    {
      assert fields[..i + 1][..i] == fields[..i];
      var field := fields[i];
      if field.isDerived {
        var newValue := Str(DerivedValue(field, formData, today));
        if Lookup(updatedData, field.id) != newValue {
          updatedData := updatedData[field.id := newValue];
          hasChanges := true;
        }
      }
    }
    assert fields[..|fields|] == fields;
  }

  /** Entries other than derived fields' ids keep their presence and value. */
  lemma {:induction false} RecomputeKeepsOthers(data: map<string, Value>, fs: seq<Field>, today: CivilDate, k: string)
    requires forall i | 0 <= i < |fs| && fs[i].isDerived :: fs[i].id != k
    ensures var m := Recompute(data, fs, today).0;
      (k in m <==> k in data) && Lookup(m, k) == Lookup(data, k)
    decreases |fs|
  {
    if fs != [] {
      RecomputeKeepsOthers(data, fs[..|fs| - 1], today, k);
    }
  }

  /** With distinct ids, every derived field's entry holds the value computed
      from the input map. */
  lemma {:induction false} RecomputeSetsDerived(data: map<string, Value>, fs: seq<Field>, today: CivilDate, i: nat)
    requires UniqueIds(fs) && i < |fs| && fs[i].isDerived
    ensures var m := Recompute(data, fs, today).0;
      fs[i].id in m && m[fs[i].id] == Str(DerivedValue(fs[i], data, today))
    decreases |fs|
  {
    var init := fs[..|fs| - 1];
    assert forall j | 0 <= j < |init| :: init[j] == fs[j];
    if i < |fs| - 1 {
      assert UniqueIds(init);
      RecomputeSetsDerived(data, init, today, i);
    }
  }

  /** With distinct ids, the pass reports a change exactly when some derived
      field's entry in the input map differs strictly from its computed value
      (an absent entry counts as different). */
  lemma {:induction false} RecomputeChangeFlag(data: map<string, Value>, fs: seq<Field>, today: CivilDate)
    requires UniqueIds(fs)
    ensures Recompute(data, fs, today).1 <==>
      exists i | 0 <= i < |fs| :: fs[i].isDerived && Lookup(data, fs[i].id) != Str(DerivedValue(fs[i], data, today))
    decreases |fs|
  {
    if fs != [] {
      var init := fs[..|fs| - 1];
      var f := fs[|fs| - 1];
      assert forall j | 0 <= j < |init| :: init[j] == fs[j];
      assert UniqueIds(init);
      RecomputeChangeFlag(data, init, today);
      if f.isDerived {
        RecomputeKeepsOthers(data, init, today, f.id);
      }
    }
  }

  /** The pass keeps every key of its input, and a key it adds holds a string. */
  lemma {:induction false} RecomputeExtends(data: map<string, Value>, fs: seq<Field>, today: CivilDate, k: string)
    ensures var m := Recompute(data, fs, today).0;
      (k in data ==> k in m) && (k in m && k !in data ==> m[k].Str?)
    decreases |fs|
  {
    if fs != [] {
      RecomputeExtends(data, fs[..|fs| - 1], today, k);
    }
  }

  /** A pass that reports no change returns its input map. */
  lemma {:induction false} RecomputeUnchanged(data: map<string, Value>, fs: seq<Field>, today: CivilDate)
    ensures !Recompute(data, fs, today).1 ==> Recompute(data, fs, today).0 == data
    decreases |fs|
  {
    if fs != [] {
      RecomputeUnchanged(data, fs[..|fs| - 1], today);
    }
  }

  /** No derived field reads the entry of a derived field. */
  predicate ParentsNotDerived(fs: seq<Field>) {
    forall i, j | 0 <= i < |fs| && 0 <= j < |fs| && fs[i].isDerived && fs[j].isDerived ::
      fs[j].id !in Reads(fs[i])
  }

  /** Running the pass again on its own output (same day) changes nothing,
      provided ids are distinct and no derived field depends on another. */
  lemma RecomputeIdempotent(data: map<string, Value>, fs: seq<Field>, today: CivilDate)
    requires UniqueIds(fs) && ParentsNotDerived(fs)
    ensures var m := Recompute(data, fs, today).0;
      !Recompute(m, fs, today).1 && Recompute(m, fs, today).0 == m
  {
    var m := Recompute(data, fs, today).0;
    forall i | 0 <= i < |fs| && fs[i].isDerived
      ensures Lookup(m, fs[i].id) == Str(DerivedValue(fs[i], m, today))
    {
      RecomputeSetsDerived(data, fs, today, i);
      forall k | k in Reads(fs[i]) ensures Lookup(m, k) == Lookup(data, k) {
        RecomputeKeepsOthers(data, fs, today, k);
      }
      DerivedValueLocal(fs[i], m, data, today);
    }
    RecomputeChangeFlag(m, fs, today);
    RecomputeUnchanged(m, fs, today);
  }

  // ----- getAvailableParentFields -----

  /** Whether `f` may feed a derived field of kind `kind` being configured
      as the field `current` (`""` for none). */
  predicate EligibleParent(kind: DerivedKind, f: Field, current: string) {
    !(current != "" && f.id == current)
    && !f.isDerived
    && match kind
       case AgeFromDob => f.ftype == Date
       case FullName => f.ftype == Text
       case _ => false
  }

  /** `getAvailableParentFields(kind, allFields, current)`. */
  function AvailableParents(kind: DerivedKind, allFields: seq<Field>, current: string): seq<Field> {
    if allFields == [] then []
    else
      var rest := AvailableParents(kind, allFields[1..], current);
      if EligibleParent(kind, allFields[0], current) then [allFields[0]] + rest else rest
  }

  /** The parents offered are the eligible fields, in their order: never the
      field being configured, never a derived field, only fields of the
      parent types the kind's configuration names, and none for a kind
      without such types. */
  lemma {:induction false} AvailableParentsSpec(kind: DerivedKind, allFields: seq<Field>, current: string)
    ensures var r := AvailableParents(kind, allFields, current);
      && IsSubsequence(r, allFields)
      && (forall f :: f in r <==> f in allFields && EligibleParent(kind, f, current))
      && (forall f | f in r :: !f.isDerived && (current != "" ==> f.id != current))
      && (forall f | f in r :: ParentFieldTypes(kind).Some? && f.ftype in ParentFieldTypes(kind).value)
      && (ParentFieldTypes(kind).None? ==> r == [])
  {
    var r := AvailableParents(kind, allFields, current);
    if allFields != [] {
      var rest := AvailableParents(kind, allFields[1..], current);
      AvailableParentsSpec(kind, allFields[1..], current);
      assert forall f :: f in allFields <==> f == allFields[0] || f in allFields[1..];
      if EligibleParent(kind, allFields[0], current) {
        assert r[1..] == rest;
      }
    }
  }

  // ----- validateDerivedFieldConfig -----

  const TypeRequired: string := "Derived field type is required"
  const ParentRequired: string := "Parent date field is required for age calculation"
  const ParentNotFound: string := "Selected parent field not found"
  const ParentNotDate: string := "Parent field must be a date field"
  const NamesRequired: string := "Both first name and last name fields are required"
  const NamesNotFound: string := "Selected parent fields not found"
  const NamesNotText: string := "Parent fields must be text fields"

  function UnknownKindMessage(k: DerivedKind): string {
    "Unknown derived field type: " + DerivedKindName(k)
  }

  /** Every message `validateDerivedFieldConfig` can produce. */
  predicate IsDerivedMessage(m: string) {
    m in {TypeRequired, ParentRequired, ParentNotFound, ParentNotDate, NamesRequired, NamesNotFound, NamesNotText,
          UnknownKindMessage(CalculatedField)}
  }

  /** The first field with id `id`, as `allFields.find` returns it. */
  function FieldById(fs: seq<Field>, id: string): Option<Field> {
    Find(fs, FieldId, id)
  }

  /** `validateDerivedFieldConfig(config, allFields)`: every branch pushes at
      most one message. */
  method ValidateDerivedFieldConfig(config: Option<DerivedConfig>, allFields: seq<Field>)
    returns (errors: seq<string>)
    ensures |errors| <= 1 && forall m | m in errors :: IsDerivedMessage(m)
    ensures errors == [] <==> ConfigResolves(config, allFields)
    ensures config.None? || config.value.kind == NoKind ==> errors == [TypeRequired]
    ensures config.Some? && config.value.kind == CalculatedField ==> errors == [UnknownKindMessage(CalculatedField)]
  {
    errors := [];
    if config.None? || config.value.kind == NoKind {
      errors := errors + [TypeRequired];
      return;
    }
    var c := config.value;
    match c.kind {
      case AgeFromDob =>
        if c.parentField == "" {
          errors := errors + [ParentRequired];
        } else {
          var parent := FieldById(allFields, c.parentField);
          if parent.None? {
            errors := errors + [ParentNotFound];
          } else if parent.value.ftype != Date {
            errors := errors + [ParentNotDate];
          }
        }
      case FullName =>
        if c.firstNameField == "" || c.lastNameField == "" {
          errors := errors + [NamesRequired];
        } else {
          var first := FieldById(allFields, c.firstNameField);
          var last := FieldById(allFields, c.lastNameField);
          if first.None? || last.None? {
            errors := errors + [NamesNotFound];
          } else if first.value.ftype != Text || last.value.ftype != Text {
            errors := errors + [NamesNotText];
          }
        }
      case CalculatedField =>
        errors := errors + [UnknownKindMessage(c.kind)];
    }
  }

  /** `id` is non-empty and the first field carrying it has type `t`. */
  predicate Names(fs: seq<Field>, id: string, t: FieldType) {
    id != "" && exists j | 0 <= j < |fs| :: fs[j].id == id && fs[j].ftype == t && forall i | 0 <= i < j :: fs[i].id != id
  }

  /** A configuration the validator accepts: a kind with a calculation whose
      referenced fields exist with the parent type. Whether a referenced
      field is itself derived, or is the field being configured, plays no
      part. */
  predicate ConfigResolves(config: Option<DerivedConfig>, fs: seq<Field>) {
    config.Some? &&
    var c := config.value;
    match c.kind
    case AgeFromDob => Names(fs, c.parentField, Date)
    case FullName => Names(fs, c.firstNameField, Text) && Names(fs, c.lastNameField, Text)
    case _ => false
  }
}
