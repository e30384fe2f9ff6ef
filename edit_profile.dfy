/** The profile editor: a six-field form prefilled from the stored profile,
    validated field by field before the update is written. */
module EditProfile {
  import opened Wrappers
  import opened JsString
  import opened ProfileForm
  import FitnessPaths

  // ---------------------------------------------------------------------------
  // Validation rules

  const NameRequired: string := "Nome é obrigatório"
  const LastNameRequired: string := "Sobrenome é obrigatório"
  const AgeRange: string := "Idade deve ser entre 12 e 100 anos"
  const WeightRange: string := "Peso deve ser entre 30kg e 300kg"
  const HeightRange: string := "Altura deve ser entre 100cm e 250cm"
  const FocusRequired: string := "Selecione um foco de treino"

  /** The message each rule stores under its field; none is empty, so a field
      with a fresh message counts as having an error. */
  function Message(f: ProfileField): (r: string)
    ensures r != ""
  {
    match f
    case FirstName => NameRequired
    case LastName => LastNameRequired
    case Age => AgeRange
    case Weight => WeightRange
    case Height => HeightRange
    case Focus => FocusRequired
  }

  /** `parsed < lo || parsed > hi` where a `NaN` parse makes both comparisons false. */
  predicate OutsideInt(parsed: Option<int>, lo: int, hi: int) {
    parsed.Some? && (parsed.value < lo || parsed.value > hi)
  }

  predicate OutsideReal(parsed: Option<real>, lo: real, hi: real) {
    parsed.Some? && (parsed.value < lo || parsed.value > hi)
  }

  /** Whether the rule for field `f` fires on `form`. */
  predicate Rejected(form: Form, f: ProfileField) {
    match f
    case FirstName => Blank(form.firstName.text)
    case LastName => Blank(form.lastName.text)
    case Age => form.age.text == "" || OutsideInt(form.age.asInt, 12, 100)
    case Weight => form.weight.text == "" || OutsideReal(form.weight.asFloat, 30.0, 300.0)
    case Height => form.height.text == "" || OutsideReal(form.height.asFloat, 100.0, 250.0)
    case Focus => form.focus.text == ""
  }

  /** The `errors` record: for each field, no key (`None`) or the message
      stored under it (`Some`), possibly the blanked message `''`. */
  datatype Errors = Errors(
    firstName: Option<string>, lastName: Option<string>, age: Option<string>,
    weight: Option<string>, height: Option<string>, focus: Option<string>)
  {
    function Get(f: ProfileField): Option<string> {
      match f
      case FirstName => firstName
      case LastName => lastName
      case Age => age
      case Weight => weight
      case Height => height
      case Focus => focus
    }

    /** `{ ...errors, [f]: v }` */
    function With(f: ProfileField, v: string): (r: Errors)
      ensures r.Get(f) == Some(v)
      ensures forall g :: g != f ==> r.Get(g) == Get(g)
    {
      match f
      case FirstName => this.(firstName := Some(v))
      case LastName => this.(lastName := Some(v))
      case Age => this.(age := Some(v))
      case Weight => this.(weight := Some(v))
      case Height => this.(height := Some(v))
      case Focus => this.(focus := Some(v))
    }

    /** `Object.keys(errors).length` */
    function KeyCount(): (n: nat)
      ensures n == 0 <==> this == NoErrors
    {
      (if firstName.Some? then 1 else 0) + (if lastName.Some? then 1 else 0)
      + (if age.Some? then 1 else 0) + (if weight.Some? then 1 else 0)
      + (if height.Some? then 1 else 0) + (if focus.Some? then 1 else 0)
    }
  }

  /** `{}` */
  const NoErrors: Errors := Errors(None, None, None, None, None, None)

  /** The entry rule `f` contributes to `newErrors`. */
  function RuleError(form: Form, f: ProfileField): Option<string> {
    if Rejected(form, f) then Some(Message(f)) else None
  }

  /** The `newErrors` record `validateForm` builds: one message per rule that
      fires, and no key for a field whose rule does not. */
  function FormErrors(form: Form): (r: Errors)
    ensures r.firstName.Some? <==> Blank(form.firstName.text)
    ensures r.lastName.Some? <==> Blank(form.lastName.text)
    ensures r.age.Some? <==> form.age.text == "" || (form.age.asInt.Some? && !(12 <= form.age.asInt.value <= 100))
    ensures r.weight.Some? <==>
      form.weight.text == "" || (form.weight.asFloat.Some? && !(30.0 <= form.weight.asFloat.value <= 300.0))
    ensures r.height.Some? <==>
      form.height.text == "" || (form.height.asFloat.Some? && !(100.0 <= form.height.asFloat.value <= 250.0))
    ensures r.focus.Some? <==> form.focus.text == ""
    ensures forall f :: r.Get(f).Some? ==> r.Get(f).value == Message(f)
  {
    Errors(RuleError(form, FirstName), RuleError(form, LastName), RuleError(form, Age),
      RuleError(form, Weight), RuleError(form, Height), RuleError(form, Focus))
  }

  /** `validateForm()` is true exactly when no rule fires: both names have a
      non-blank character, age, weight and height are present and not outside
      their inclusive ranges, and a focus is chosen. */
  lemma ValidIffNoRuleFires(form: Form)
    ensures FormErrors(form) == NoErrors <==>
      && !Blank(form.firstName.text) && !Blank(form.lastName.text)
      && form.age.text != "" && !OutsideInt(form.age.asInt, 12, 100)
      && form.weight.text != "" && !OutsideReal(form.weight.asFloat, 30.0, 300.0)
      && form.height.text != "" && !OutsideReal(form.height.asFloat, 100.0, 250.0)
      && form.focus.text != ""
  {
  }

  /** An age that does not parse gets no error once it is non-empty: the form
      passes although the written age is `NaN`. */
  lemma UnparseableAgePasses()
    ensures var form := Form(WordInput("Ana"), WordInput("Silva"), TextInput("abc", None, None),
        TextInput("70", Some(70), Some(70.0)), TextInput("175", Some(175), Some(175.0)), WordInput("crossfit"));
      && FormErrors(form) == NoErrors && UpdatePayload(form).age == None
  {
    var form := Form(WordInput("Ana"), WordInput("Silva"), TextInput("abc", None, None),
      TextInput("70", Some(70), Some(70.0)), TextInput("175", Some(175), Some(175.0)), WordInput("crossfit"));
    assert form.firstName.text[0] == 'A' && form.lastName.text[0] == 'S';
    assert !Blank(form.firstName.text) && !Blank(form.lastName.text);
    ValidIffNoRuleFires(form);
  }

  // ---------------------------------------------------------------------------
  // Prefill

  /** The stored profile as the editor sees it; `None` is a missing field, and a
      stored number is given by the text `toString()` renders for it. */
  datatype StoredProfile = StoredProfile(
    firstName: Option<string>, lastName: Option<string>, age: Option<TextInput>,
    weight: Option<TextInput>, height: Option<TextInput>, focus: Option<string>)

  /** `x || ''`, and for the focus `x || 'bodybuilding'`: a missing or empty
      value takes the fallback. */
  function PrefilledForm(u: StoredProfile): (r: Form)
    ensures r.firstName.text == u.firstName.GetOr("") && r.lastName.text == u.lastName.GetOr("")
    ensures r.age == (if u.age.Some? && u.age.value.text != "" then u.age.value else EmptyInput)
    ensures r.weight == (if u.weight.Some? && u.weight.value.text != "" then u.weight.value else EmptyInput)
    ensures r.height == (if u.height.Some? && u.height.value.text != "" then u.height.value else EmptyInput)
    ensures r.focus.text != ""
    ensures u.focus.Some? && u.focus.value != "" ==> r.focus.text == u.focus.value
    ensures (u.focus.None? || u.focus.value == "") ==> r.focus.text == "bodybuilding"
  {
    Form(
      WordInput(OrElse(u.firstName, "")),
      WordInput(OrElse(u.lastName, "")),
      NumberOrEmpty(u.age),
      NumberOrEmpty(u.weight),
      NumberOrEmpty(u.height),
      WordInput(OrElse(u.focus, "bodybuilding")))
  }

  /** `s || fallback` on a possibly missing string. */
  function OrElse(s: Option<string>, fallback: string): string {
    if s.Some? && s.value != "" then s.value else fallback
  }

  function NumberOrEmpty(n: Option<TextInput>): TextInput {
    if n.Some? && n.value.text != "" then n.value else EmptyInput
  }

  /** A prefilled form always has a focus, so the focus rule cannot fire
      before the user edits it. */
  lemma PrefilledFocusNeverRejected(u: StoredProfile)
    ensures FormErrors(PrefilledForm(u)).focus.None?
  {
  }

  // ---------------------------------------------------------------------------
  // Submission payload

  /** The fields written on a successful submit (`updatedAt` aside), plus the
      untrimmed display name sent to the authentication profile. */
  datatype ProfileUpdate = ProfileUpdate(
    displayName: string, firstName: string, lastName: string, fullName: string,
    age: Option<int>, weight: Option<real>, height: Option<real>,
    focus: string, fitnessPath: string, classTitle: string)

  /** `find(...)?.name || 'Bodybuilding'`. */
  function PathName(focus: string): (r: string)
    ensures r != ""
    ensures forall i :: 0 <= i < |FitnessPaths.Paths| && FitnessPaths.Paths[i].id == focus ==>
      r == FitnessPaths.Paths[i].name
    ensures (forall i :: 0 <= i < |FitnessPaths.Paths| ==> FitnessPaths.Paths[i].id != focus) ==>
      r == "Bodybuilding"
  {
    FitnessPaths.NamesNonEmpty();
    var found := FitnessPaths.Find(focus);
    if found.Some? && found.value != "" then found.value else "Bodybuilding"
  }

  function UpdatePayload(form: Form): (r: ProfileUpdate)
    ensures r.displayName == form.firstName.text + " " + form.lastName.text
    ensures r.firstName == Trim(form.firstName.text) && r.lastName == Trim(form.lastName.text)
    ensures r.fullName == r.firstName + " " + r.lastName
    ensures r.age == form.age.asInt && r.weight == form.weight.asFloat && r.height == form.height.asFloat
    ensures r.focus == form.focus.text && r.classTitle == r.fitnessPath == PathName(form.focus.text)
    ensures FormErrors(form) == NoErrors ==>
      && r.firstName != "" && !IsWhitespace(r.firstName[0]) && !IsWhitespace(r.firstName[|r.firstName| - 1])
      && r.lastName != "" && !IsWhitespace(r.lastName[0]) && !IsWhitespace(r.lastName[|r.lastName| - 1])
    ensures FormErrors(form) == NoErrors && r.age.Some? ==> 12 <= r.age.value <= 100
    ensures FormErrors(form) == NoErrors && r.weight.Some? ==> 30.0 <= r.weight.value <= 300.0
    ensures FormErrors(form) == NoErrors && r.height.Some? ==> 100.0 <= r.height.value <= 250.0
  {
    ValidIffNoRuleFires(form);
    var first := Trim(form.firstName.text);
    var last := Trim(form.lastName.text);
    ProfileUpdate(
      form.firstName.text + " " + form.lastName.text,
      first, last, first + " " + last,
      form.age.asInt, form.weight.asFloat, form.height.asFloat,
      form.focus.text, PathName(form.focus.text), PathName(form.focus.text))
  }

  // ---------------------------------------------------------------------------
  // Editing a field

  /** `if (errors[f]) errors = { ...errors, [f]: '' }`: a set, non-empty message
      is blanked, the key staying; every other entry is kept. */
  function ClearedError(errors: Errors, f: ProfileField): (r: Errors)
    ensures r.Get(f).Some? <==> errors.Get(f).Some?
    ensures r.Get(f).Some? ==> r.Get(f).value == ""
    ensures forall g :: g != f ==> r.Get(g) == errors.Get(g)
  {
    if errors.Get(f).Some? && errors.Get(f).value != "" then errors.With(f, "") else errors
  }

  // ---------------------------------------------------------------------------
  // The modal's state

  class EditProfileModal {
    var formData: Form
    var errors: Errors

    constructor ()
      ensures formData == EmptyForm && errors == NoErrors
    {
      formData := EmptyForm;
      errors := NoErrors;
    }

    /** The prefill effect: only with a profile and an open modal does it
        replace the form and clear the errors. */
    method Prefill(userData: Option<StoredProfile>, isOpen: bool)
      modifies this
      ensures userData.Some? && isOpen ==> formData == PrefilledForm(userData.value) && errors == NoErrors
      ensures !(userData.Some? && isOpen) ==> formData == old(formData) && errors == old(errors)
    {
      if userData.Some? && isOpen {
        formData := PrefilledForm(userData.value);
        errors := NoErrors;
      }
    }

    /** `validateForm`: fills `newErrors` rule by rule, stores it, and answers
        whether it stayed empty. */
    method ValidateForm() returns (ok: bool)
      modifies this
      ensures formData == old(formData)
      ensures errors == FormErrors(formData)
      ensures ok <==> errors == NoErrors
    {
      var newErrors := NameRules(formData);
      newErrors := MeasureRules(formData, newErrors);
      if formData.focus.text == "" {
        newErrors := newErrors.(focus := Some(Message(Focus)));
      }
      errors := newErrors;
      ok := newErrors.KeyCount() == 0;
    }

    /** The first two steps of `validateForm`, on an empty `newErrors`. */
    static method NameRules(form: Form) returns (newErrors: Errors)
      ensures newErrors == Errors(RuleError(form, FirstName), RuleError(form, LastName), None, None, None, None)
    {
      newErrors := NoErrors;
      if Trim(form.firstName.text) == "" {
        newErrors := newErrors.(firstName := Some(Message(FirstName)));
      }
      if Trim(form.lastName.text) == "" {
        newErrors := newErrors.(lastName := Some(Message(LastName)));
      }
    }

    /** The age, weight and height steps of `validateForm`. */
    static method MeasureRules(form: Form, e: Errors) returns (newErrors: Errors)
      requires e.age.None? && e.weight.None? && e.height.None?
      ensures newErrors == e.(age := RuleError(form, Age), weight := RuleError(form, Weight),
        height := RuleError(form, Height))
    {
      newErrors := e;
      var age := form.age.asInt;
      if form.age.text == "" || (age.Some? && age.value < 12) || (age.Some? && age.value > 100) {
        newErrors := newErrors.(age := Some(Message(Age)));
      }
      var weight := form.weight.asFloat;
      if form.weight.text == "" || (weight.Some? && weight.value < 30.0) || (weight.Some? && weight.value > 300.0) {
        newErrors := newErrors.(weight := Some(Message(Weight)));
      }
      var height := form.height.asFloat;
      if form.height.text == "" || (height.Some? && height.value < 100.0) || (height.Some? && height.value > 250.0) {
        newErrors := newErrors.(height := Some(Message(Height)));
      }
    }

    /** `handleSubmit` up to the write: a failed validation stops it; otherwise
        the update payload is what is written. */
    method HandleSubmit() returns (payload: Option<ProfileUpdate>)
      modifies this
      ensures formData == old(formData)
      ensures errors == FormErrors(formData)
      ensures payload.Some? <==> FormErrors(formData) == NoErrors
      ensures payload.Some? ==> payload.value == UpdatePayload(formData)
    {
      var ok := ValidateForm();
      if !ok {
        return None;
      }
      payload := Some(UpdatePayload(formData));
    }

    /** `handleInputChange(f, v)`: field `f` takes `v` and its error, if set,
        is blanked. */
    method HandleInputChange(f: ProfileField, v: TextInput)
      modifies this
      ensures formData == old(formData).With(f, v)
      ensures errors == ClearedError(old(errors), f)
    {
      formData := formData.With(f, v);
      if errors.Get(f).Some? && errors.Get(f).value != "" {
        errors := errors.With(f, "");
      }
    }
  }
}
