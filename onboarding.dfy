/** The seven-step onboarding wizard: a step counter moved by Continue and
    Back, a validity rule per step, and the user record written after the
    last step. */
module Onboarding {
  import opened Wrappers
  import opened JsString
  import opened ProfileForm
  import FitnessPaths
  import opened LevelSystem
  import opened UserDocument

  /** `steps.length` */
  const StepCount: int := 7

  /** `isStepValid` for step `step`: the names on step 1, the age on step 2,
      weight and height on steps 3 and 4 (read with `parseInt`), the focus on
      step 5, and nothing on the welcome and summary steps. */
  function StepValid(step: int, form: Form): (r: bool)
    ensures step == 1 ==> (r <==> !Blank(form.firstName.text) && !Blank(form.lastName.text))
    ensures step == 2 ==> (r <==> form.age.text != "" && form.age.asInt.Some? && form.age.asInt.value >= 12)
    ensures step == 3 ==> (r <==> form.weight.text != "" && form.weight.asInt.Some? && form.weight.asInt.value >= 30)
    ensures step == 4 ==> (r <==> form.height.text != "" && form.height.asInt.Some? && form.height.asInt.value >= 100)
    ensures step == 5 ==> (r <==> form.focus.text != "")
    ensures step !in {1, 2, 3, 4, 5} ==> r
  {
    match step
    case 1 => Trim(form.firstName.text) != "" && Trim(form.lastName.text) != ""
    case 2 => form.age.text != "" && AtLeast(form.age.asInt, 12)
    case 3 => form.weight.text != "" && AtLeast(form.weight.asInt, 30)
    case 4 => form.height.text != "" && AtLeast(form.height.asInt, 100)
    case 5 => form.focus.text != ""
    case _ => true
  }

  /** `parsed >= bound`, false for `NaN`. */
  predicate AtLeast(parsed: Option<int>, bound: int) {
    parsed.Some? && parsed.value >= bound
  }

  /** Where one press of Continue leads: forward by one from a valid step below
      the last, nowhere otherwise (an invalid step disables the button, and the
      last step writes the record instead of advancing). */
  function AfterContinue(step: int, form: Form): (r: int)
    ensures 0 <= step < StepCount ==> 0 <= r < StepCount
    ensures r == step + 1 <==> StepValid(step, form) && step < StepCount - 1
    ensures r != step + 1 ==> r == step
  {
    if StepValid(step, form) && step < StepCount - 1 then step + 1 else step
  }

  /** Where Back leads: back by one above the first step. */
  function AfterBack(step: int): (r: int)
    ensures 0 <= step < StepCount ==> 0 <= r < StepCount
    ensures step > 0 ==> r == step - 1
    ensures step <= 0 ==> r == step
  {
    if step > 0 then step - 1 else step
  }

  /** The step after `n` presses of Continue on an unchanged form. */
  function Presses(step: int, form: Form, n: nat): int {
    if n == 0 then step else AfterContinue(Presses(step, form, n - 1), form)
  }

  /** Continue never moves forward by more than one step a press. */
  lemma {:induction false} PressesBounded(step: int, form: Form, n: nat)
    ensures step <= Presses(step, form, n) <= step + n
  {
    if n > 0 {
      var before := Presses(step, form, n - 1);
      PressesBounded(step, form, n - 1);
      assert AfterContinue(before, form) in {before, before + 1};
    }
  }

  /** Getting `n` steps ahead with `n` presses means every step passed was
      valid when it was left. */
  lemma {:induction false} ContinueOnlyFromValidSteps(step: int, form: Form, n: nat)
    requires Presses(step, form, n) == step + n
    ensures forall j :: step <= j < step + n ==> StepValid(j, form)
  {
    if n > 0 {
      var before := Presses(step, form, n - 1);
      PressesBounded(step, form, n - 1);
      assert AfterContinue(before, form) == before + 1;
      ContinueOnlyFromValidSteps(step, form, n - 1);
      forall j | step <= j < step + n
        ensures StepValid(j, form)
      {
        if j == before {
          assert StepValid(before, form);
        }
      }
    }
  }

  /** The document fields written when the last step is confirmed (the
      timestamps aside). `fitnessPath` and `classTitle` are `undefined` for an
      unknown focus: no fallback here. */
  datatype OnboardingRecord = OnboardingRecord(
    hasCompletedOnboarding: bool, firstName: string, lastName: string, fullName: string,
    age: Option<int>, weight: Option<real>, height: Option<real>, focus: string,
    fitnessPath: Option<string>, classTitle: Option<string>,
    level: int, xp: int, systemActivated: bool, muscleStats: StoredMuscles)

  function FinalRecord(form: Form): (r: OnboardingRecord)
    ensures r.hasCompletedOnboarding && r.systemActivated
    ensures r.level == 1 && r.xp == 0
    ensures forall m :: r.muscleStats.Get(m) == MuscleData(1, 0, 100)
    ensures r.firstName == form.firstName.text && r.lastName == form.lastName.text
    ensures r.fullName == form.firstName.text + " " + form.lastName.text
    ensures r.age == form.age.asInt && r.weight == form.weight.asFloat && r.height == form.height.asFloat
    ensures r.focus == form.focus.text && r.classTitle == r.fitnessPath
    ensures r.fitnessPath.None? <==>
      forall i :: 0 <= i < |FitnessPaths.Paths| ==> FitnessPaths.Paths[i].id != form.focus.text
  {
    var path := FitnessPaths.Find(form.focus.text);
    OnboardingRecord(
      true, form.firstName.text, form.lastName.text, form.firstName.text + " " + form.lastName.text,
      form.age.asInt, form.weight.asFloat, form.height.asFloat, form.focus.text,
      path, path, 1, 0, true, Uniform(MuscleData(1, 0, 100)))
  }

  /** The record seeds every muscle with a `nextLevelXp` of 100, which is neither
      the engine's seed of 500 nor its first real threshold of 900. */
  lemma RecordSeedDiffersFromEngine(form: Form)
    ensures FinalRecord(form).muscleStats.Get(Chest).nextLevelXp != InitialMuscle.nextLevelXp
    ensures FinalRecord(form).muscleStats.Get(Chest).nextLevelXp != NextLevelXp(DefaultConfig, 1)
  {
    DefaultFirstThreshold();
  }

  /** The wizard's state. */
  class OnboardingFlow {
    var currentStep: int
    var formData: Form

    ghost predicate Valid()
      reads this
    {
      0 <= currentStep < StepCount
    }

    constructor ()
      ensures Valid() && currentStep == 0 && formData == EmptyForm
    {
      currentStep := 0;
      formData := EmptyForm;
    }

    /** An input's `onChange`: `setFormData({ ...formData, [f]: v })`. */
    method SetField(f: ProfileField, v: TextInput)
      requires Valid()
      modifies this
      ensures Valid() && currentStep == old(currentStep)
      ensures formData == old(formData).With(f, v)
    {
      formData := formData.With(f, v);
    }

    /** `handleNext`: advance below the last step; on the last step, hand back
        the record to write. */
    method HandleNext() returns (record: Option<OnboardingRecord>)
      requires Valid()
      modifies this
      ensures Valid() && formData == old(formData)
      ensures old(currentStep) < StepCount - 1 ==> currentStep == old(currentStep) + 1 && record.None?
      ensures old(currentStep) == StepCount - 1 ==> currentStep == old(currentStep) && record == Some(FinalRecord(formData))
    {
      if currentStep < StepCount - 1 {
        currentStep := currentStep + 1;
        record := None;
      } else {
        record := Some(FinalRecord(formData));
      }
    }

    /** `handleBack` */
    method HandleBack()
      requires Valid()
      modifies this
      ensures Valid() && formData == old(formData)
      ensures currentStep == AfterBack(old(currentStep))
    {
      if currentStep > 0 {
        currentStep := currentStep - 1;
      }
    }

    /** A press of the Continue button, which is disabled while the step is
        invalid. */
    method PressContinue() returns (record: Option<OnboardingRecord>)
      requires Valid()
      modifies this
      ensures Valid() && formData == old(formData)
      ensures currentStep == AfterContinue(old(currentStep), formData)
      ensures record.Some? <==> old(currentStep) == StepCount - 1 && StepValid(old(currentStep), formData)
      ensures record.Some? ==> record.value == FinalRecord(formData)
    {
      if !StepValid(currentStep, formData) {
        return None;
      }
      record := HandleNext();
    }
  }
}
