# LevelFit progression core in Dafny

LevelFit is a gamified fitness web app. A user earns experience points (XP)
on an overall track and on seven muscle tracks (chest, back, shoulders,
biceps, triceps, legs, core). This project models the parts of the app that
decide levels and shape the user's profile:

- **The level engine** (`useLevelSystem`), module `LevelSystem`. This covers:
  - the configuration merge and the three difficulty curves, with XP
    thresholds floored to integers;
  - overall XP with a single level-up per award and a level cap;
  - muscle XP, of which 30% (floored) also goes to the overall track;
  - workouts, where each positive entry is applied in order;
  - the per-exercise XP formula, capped at 200;
  - the clamped overall progress, the unclamped per-muscle progress, and
    reset.

  The engine is a class, `LevelSystemHook`. Its methods update the state and
  are proved against pure transition functions. Lemmas about those functions
  carry the properties: a preserved invariant, threshold monotonicity, and
  what a workout does to each muscle.
- **The tester hook** (`useLevelTester`), module `LevelTester`. It has the
  same seven scripted actions as the source. Lemmas compute the exact
  outcome of each workout from the reset state.
- **The muscle panel** (`MuscleStats`), module `MuscleStatsPanel`. It covers
  card order and names, rank titles, and the unclamped progress bar.
- **The edit-profile modal** (`EditProfileModal`), module `EditProfile`. It
  covers prefill, validation with its six messages, clearing an error on
  input, the submit guard, and the update payload.
- **The onboarding wizard**, module `Onboarding`. It covers the seven-step
  machine, the per-step validity that gates "Continue", and the record
  written on completion.
- **The registration form** (`RegisterForm`), module `Register`. It covers
  the ordered pre-submit checks and the created user document.

Shared modules:

| Module | What it models |
|---|---|
| `Wrappers` | Option |
| `JsNumber` | JavaScript division by zero, and `Math.max`/`Math.min` over NaN and infinities |
| `JsString` | `String.prototype.trim`; a text input together with what `parseInt` / `parseFloat` make of it |
| `ProfileForm` | the six-field profile form |
| `FitnessPaths` | the training-focus table and its first-match lookup |
| `UserDocument` | the stored muscle record |

Arithmetic is exact: JavaScript numbers become `int` or `real`, and
`Math.floor` becomes `.Floor`. The source's quirks are kept as written:

- The muscle seed stores `nextLevelXp` 500 but levels up at 900.
- Onboarding writes muscles with `nextLevelXp` 100.
- Onboarding checks weight and height with `parseInt`, but stores them with
  `parseFloat`.
- Onboarding has no fallback fitness path; the edit modal falls back to
  "Bodybuilding".

Three more facts about the code shape the contracts:

- `addUserXp` does not reject a negative amount; it is added like any other.
- `userLevelProgress` divides by the width of the level's XP span without
  checking it, so a span of zero width gives a JavaScript division by zero.
- With a non-negative base and, on the exponential and linear curves, a
  multiplier of at least 1 (the default 1.8 qualifies), thresholds are
  non-decreasing in the level. Outside those conditions they can fall: an
  exponential curve with base 500 and multiplier 0.5 needs 250 XP for level 2
  and 125 for level 3. Even when they do not fall, the floor can make two
  consecutive thresholds equal, so they need not strictly increase.

## Model

| member | source | states |
|---|---|---|
| LevelSystem.MergeConfig | src/hooks/useLevelSystem.ts:36-54 | each field given by the caller overrides the default; every absent field keeps the default (500, 1.8, 50, exponential) |
| LevelSystem.MaxLevel | src/hooks/useLevelSystem.ts:95 | the cap is the configured maxLevel when that is present and non-zero, and 50 when it is absent or 0 (the `\|\| 50` fallback); it is never 0 |
| LevelSystem.NextLevelXp | src/hooks/useLevelSystem.ts:84-86 | the next threshold is the threshold of the following level, and 0 for levels at or below 0 |
| LevelSystem.XpForLevel | src/hooks/useLevelSystem.ts:61-62 | levels at or below 1 need 0 XP |
| LevelSystem.ThresholdsNonDecreasing | src/hooks/useLevelSystem.ts:61-86 | with a non-negative base and (for exponential and linear curves) a multiplier of at least 1, the threshold for the next level is never below the current one, on every curve |
| LevelSystem.DefaultFirstThreshold | src/hooks/useLevelSystem.ts:61-86 | under the default configuration, level 1 starts at 0 XP and level 2 needs 900 |
| LevelSystem.DefaultThresholdsIncrease | src/hooks/useLevelSystem.ts:61-86 | under the default configuration, thresholds strictly increase from level 1 onwards |
| LevelSystem.FloorCanFlattenThresholds | src/hooks/useLevelSystem.ts:70 | flooring can make two consecutive thresholds equal (base 1, multiplier 1.1), so strict growth is not guaranteed in general |
| LevelSystem.ThresholdsCanFall | src/hooks/useLevelSystem.ts:68-70 | with an exponential multiplier below 1 thresholds fall: base 500 and multiplier 0.5 need 250 XP for level 2 and 125 for level 3 |
| LevelSystem.MuscleStats.With | src/hooks/useLevelSystem.ts:121-140 | replacing one muscle's record leaves the other six unchanged |
| LevelSystem.AfterUserXp | src/hooks/useLevelSystem.ts:89-106 | muscles unchanged; rises at most one level, exactly when the new total reaches the next threshold and the level is under the cap; after a rise the XP is the non-negative carry-over, otherwise the plain sum |
| LevelSystem.MuscleAfterXp | src/hooks/useLevelSystem.ts:110-141 | XP is always the plain sum (no carry-over); rises one level exactly when the sum reaches the engine threshold; xpToNextLevel is the distance to the threshold of the resulting level; nextLevelXp changes only on a rise |
| LevelSystem.CrossContribution | src/hooks/useLevelSystem.ts:144 | the overall share is floor(30% of the award), for negative awards too |
| LevelSystem.AfterMuscleXp | src/hooks/useLevelSystem.ts:109-145 | the chosen muscle gets MuscleAfterXp, the other muscles are unchanged, and the overall track gets AfterUserXp with the 30% share |
| LevelSystem.ApplyEntry | src/hooks/useLevelSystem.ts:150-153 | an entry without a present, positive amount changes nothing; an applying one gives its muscle MuscleAfterXp of its amount and leaves every other muscle unchanged |
| LevelSystem.AfterWorkoutXp | src/hooks/useLevelSystem.ts:148-155 | an empty workout changes nothing, and a one-entry workout is that entry applied alone |
| LevelSystem.AppliedCount | src/hooks/useLevelSystem.ts:151 | the number of applying entries is at most the number of entries, and 0 exactly when no entry applies |
| LevelSystem.WorkoutSequential | src/hooks/useLevelSystem.ts:150-154 | running the entries of a + b is running those of a and then those of b from the state a left |
| LevelSystem.WorkoutLeavesOthers | src/hooks/useLevelSystem.ts:148-155 | a muscle that no applicable entry names keeps its record through a workout |
| LevelSystem.WorkoutAppliesEachEntryOnce | src/hooks/useLevelSystem.ts:148-155 | with distinct muscles, each entry with a positive amount is applied to its muscle exactly once, from that muscle's prior record |
| LevelSystem.CrossTotalNonNegative | src/hooks/useLevelSystem.ts:144-155 | since only positive amounts are applied, a workout never takes overall XP away before any level-up |
| LevelSystem.WorkoutOverallWithoutLevelUp | src/hooks/useLevelSystem.ts:144-155 | when the 30% shares do not reach the next threshold, the overall level stays and its XP grows by exactly their sum |
| LevelSystem.WorkoutLevelBounds | src/hooks/useLevelSystem.ts:148-155 | a workout never lowers the overall level and raises it by at most one level per applying entry |
| LevelSystem.Reset | src/hooks/useLevelSystem.ts:207-211 | level 1, XP 0 and the seed muscle records, whatever the prior state |
| LevelSystem.BaseXp | src/hooks/useLevelSystem.ts:165-177 | with non-negative weight, reps and sets, the base is at least 2 per rep plus 5 per set, the smallest rates of the three exercise types |
| LevelSystem.IntensityMultiplier | src/hooks/useLevelSystem.ts:180 | the multiplier 1 + intensity/10 is non-negative exactly when the intensity is at least -10, and at least 1 exactly when the intensity is non-negative |
| LevelSystem.ExerciseXp | src/hooks/useLevelSystem.ts:157-187 | the award is at most 200; below the cap it is floor(base * (1 + intensity/10)) for the exercise type's base formula; at or above the cap it is 200 |
| LevelSystem.ExerciseXpNonNegative | src/hooks/useLevelSystem.ts:157-187 | non-negative weight, reps and sets with intensity at least -10 give an award in [0, 200] |
| LevelSystem.ExerciseXpCanBeNegative | src/hooks/useLevelSystem.ts:183-186 | only the upper bound is enforced: a negative weight yields a negative award (-100) |
| LevelSystem.ExerciseXpExample | src/hooks/useLevelSystem.ts:168-186 | a strength set (intensity 8, 80 kg, 10 reps, 3 sets) is worth 77 XP |
| LevelSystem.LevelProgressOf | src/hooks/useLevelSystem.ts:190-204 | level, XP and next threshold are copied; xpToNextLevel is the remaining distance; the percentage is NaN only for 0/0 and otherwise lies in [0, 100], equal to the clamped share of the level's span whenever the span is non-zero; a zero-width span gives 100 above its threshold and 0 below it (a clamped infinity) |
| LevelSystem.MuscleProgressOf | src/hooks/useLevelSystem.ts:214-221 | one entry per muscle in key order, copying its record, with the percentage xp / nextLevelXp * 100 unclamped (JavaScript division) |
| LevelSystem.MuscleProgressOfBounds | src/hooks/useLevelSystem.ts:214-221 | every entry's percentage lies in [0, 100] while the XP lies within a non-zero stored threshold, exceeds 100 once the XP passes a positive threshold, and is NaN over a zero threshold exactly when the XP is 0 |
| LevelSystem.SeedThresholdIsNotCompared | src/hooks/useLevelSystem.ts:114-117 | 500 XP on a fresh muscle does not level it up although its stored nextLevelXp is 500 (the real threshold is 900) |
| LevelSystem.MuscleProgressCanExceedHundred | src/hooks/useLevelSystem.ts:214-221 | 800 XP on a fresh chest keeps level 1 and shows 160% progress |
| LevelSystem.LevelSystemHook.UserLevelProgress | src/hooks/useLevelSystem.ts:190-204 | is LevelProgressOf of the current level and XP: the current level and XP, the next threshold and the distance to it; a percentage that is not NaN lies in [0, 100] |
| LevelSystem.LevelSystemHook.MuscleProgress | src/hooks/useLevelSystem.ts:214-221 | is MuscleProgressOf of the stored records: one entry per muscle in key order, each with that muscle's stored level and XP |
| LevelSystem.LevelSystemHook.constructor | src/hooks/useLevelSystem.ts:53-58 | the configuration is the merge of the given override, and the state is level 1, XP 0 and the seed muscles |
| LevelSystem.LevelSystemHook.AddUserXp | src/hooks/useLevelSystem.ts:89-106 | the new state is AfterUserXp of the old one; the invariant is kept |
| LevelSystem.LevelSystemHook.AddMuscleXp | src/hooks/useLevelSystem.ts:109-145 | the new state is AfterMuscleXp of the old one; the invariant is kept |
| LevelSystem.LevelSystemHook.AddWorkoutXp | src/hooks/useLevelSystem.ts:148-155 | the new state is AfterWorkoutXp, applying each positive entry in order; the invariant is kept |
| LevelSystem.LevelSystemHook.ResetLevels | src/hooks/useLevelSystem.ts:207-211 | the new state is the reset state; the invariant holds |
| LevelSystem.InitialConsistent | src/hooks/useLevelSystem.ts:43-58 | the initial state satisfies the invariant: the level lies in [1, cap], or is 1 when the cap is below 1, and every muscle either the seed or a record whose xpToNextLevel matches the engine threshold |
| LevelSystem.ConsistentAfterUserXp | src/hooks/useLevelSystem.ts:89-106 | an overall award preserves the invariant (the level never passes the cap, because it rises only below it) |
| LevelSystem.ConsistentAfterMuscle | src/hooks/useLevelSystem.ts:109-145 | a muscle award preserves the invariant |
| LevelSystem.ConsistentAfterWorkout | src/hooks/useLevelSystem.ts:148-155 | a workout of any length preserves the invariant |
| LevelTester.AfterTestLevelUp | src/hooks/useLevelTester.ts:7-11 | "test level up" raises exactly one level leaving 1000 XP when below the cap; at the cap the level stays and XP becomes the threshold plus 1000; muscles unchanged |
| LevelTester.AfterTestMuscleLevelUp | src/hooks/useLevelTester.ts:13-17 | the muscle's XP grows by its stored xpToNextLevel plus 500, and it rises one level whenever that stored distance is the true one; the other muscles are unchanged, and the overall track gets AfterUserXp of the 30% share |
| LevelTester.TestMuscleLevelUpRaisesOneLevel | src/hooks/useLevelTester.ts:13-17 | under the default configuration, "test muscle level up" raises the chosen muscle exactly one level, from the seed and from any record the engine wrote, and leaves the other muscles alone |
| LevelTester.ExerciseXpOfWorkouts | src/hooks/useLevelTester.ts:19-56 | the scripted exercises are worth 104, 104, 87, 104, 83, 144 and 115 XP |
| LevelTester.ExerciseXpOfFullBody | src/hooks/useLevelTester.ts:61-67 | the full-body exercises are worth 97, 72, 98, 97, 98, 73 and 135 XP |
| LevelTester.SeededAward | src/hooks/useLevelSystem.ts:114-140 | a fresh muscle given under 900 XP stays at level 1 holding the award, showing the stale 500 as nextLevelXp and 900 minus the award as xpToNextLevel |
| LevelTester.SmallWorkoutMuscle | src/hooks/useLevelSystem.ts:148-155 | from the reset state, a named muscle with an award under 900 ends at level 1 holding it |
| LevelTester.UnnamedMuscle | src/hooks/useLevelSystem.ts:148-155 | from the reset state, a muscle the workout does not name keeps its seed |
| LevelTester.ChestTricepsWorkout | src/hooks/useLevelTester.ts:19-27 | the chest/triceps workout is chest 104, triceps 104 |
| LevelTester.BackBicepsWorkout | src/hooks/useLevelTester.ts:29-37 | the back/biceps workout is back 87, biceps 104 |
| LevelTester.LegWorkout | src/hooks/useLevelTester.ts:39-47 | the leg workout is legs 83, core 144 |
| LevelTester.ShouldersWorkout | src/hooks/useLevelTester.ts:49-56 | the shoulders workout is shoulders 115 |
| LevelTester.FullBodyWorkout | src/hooks/useLevelTester.ts:58-71 | the full-body workout names all seven muscles with 97, 72, 98, 97, 98, 73 and 135 |
| LevelTester.CrossTotalOfTwo | src/hooks/useLevelSystem.ts:144-155 | two positive entries send the sum of their two 30% shares to the overall track |
| LevelTester.WorkoutFromReset | src/hooks/useLevelSystem.ts:109-155 | from the reset state, a workout over distinct muscles with awards under 900 and shares under 900 leaves each named muscle at level 1 with its award, every other muscle at its seed, and the overall track at level 1 with the sum of the shares |
| LevelTester.ChestTricepsFromReset | src/hooks/useLevelTester.ts:19-27 | from reset: chest and triceps each at level 1 with 104 XP (796 to go), the rest seeded, overall level 1 with 62 XP |
| LevelTester.BackBicepsFromReset | src/hooks/useLevelTester.ts:29-37 | from reset: back 87 (813 to go), biceps 104 (796 to go), the rest seeded, overall level 1 with 57 XP |
| LevelTester.LegFromReset | src/hooks/useLevelTester.ts:39-47 | from reset: legs 83 (817 to go), core 144 (756 to go), the rest seeded, overall level 1 with 67 XP |
| LevelTester.ShouldersFromReset | src/hooks/useLevelTester.ts:49-56 | from reset: shoulders 115 (785 to go), the rest seeded, overall level 1 with 34 XP |
| LevelTester.FullBodyCrossTotal | src/hooks/useLevelTester.ts:60-70 | the full-body workout sends 198 XP to the overall track |
| LevelTester.FullBodyFromReset | src/hooks/useLevelTester.ts:58-71 | from reset, the full-body workout leaves all seven muscles at level 1 with their awards and the overall track at level 1 with 198 XP |
| LevelTester.Tester.constructor | src/hooks/useLevelTester.ts:4-5 | the tester drives a fresh engine with the default configuration in its initial state |
| LevelTester.Tester.TestLevelUp | src/hooks/useLevelTester.ts:7-11 | the engine state becomes AfterTestLevelUp of the old one |
| LevelTester.Tester.TestMuscleLevelUp | src/hooks/useLevelTester.ts:13-17 | the engine adds the muscle's xpToNextLevel plus 500; under the default configuration, the muscle rises exactly one level |
| LevelTester.Tester.TestChestTricepsWorkout | src/hooks/useLevelTester.ts:19-27 | the engine applies the chest/triceps workout |
| LevelTester.Tester.TestBackBicepsWorkout | src/hooks/useLevelTester.ts:29-37 | the engine applies the back/biceps workout |
| LevelTester.Tester.TestLegWorkout | src/hooks/useLevelTester.ts:39-47 | the engine applies the leg workout |
| LevelTester.Tester.TestShouldersWorkout | src/hooks/useLevelTester.ts:49-56 | the engine applies the shoulders workout |
| LevelTester.Tester.TestFullBodyWorkout | src/hooks/useLevelTester.ts:58-71 | the engine applies the full-body workout |
| JsString.Trim | src/pages/Profile/Components/EditProfileModal/EditProfileModal.tsx:122-124 | the trimmed text is empty exactly when the input is all whitespace, and otherwise neither starts nor ends with whitespace |
| JsString.TrimIsInfix | src/pages/Profile/Components/EditProfileModal/EditProfileModal.tsx:122-124 | the trimmed text is a contiguous part of the input, with only whitespace before it and after it |
| JsString.TrimIdempotent | src/pages/Profile/Components/EditProfileModal/EditProfileModal.tsx:122-124 | trimming twice is the same as trimming once |
| JsNumber.Divide | src/hooks/useLevelSystem.ts:195 | a non-zero divisor gives the exact quotient; dividing by zero gives NaN for 0, +Infinity for a positive and -Infinity for a negative dividend |
| JsNumber.MathMax | src/hooks/useLevelSystem.ts:202 | NaN if either argument is NaN, otherwise one of the arguments and not below either |
| JsNumber.MathMin | src/hooks/useLevelSystem.ts:202 | NaN if either argument is NaN, otherwise one of the arguments and not above either |
| ProfileForm.Form.With | src/pages/Profile/Components/EditProfileModal/EditProfileModal.tsx:151-154 | setting one field changes that field only |
| FitnessPaths.FindIn | src/pages/Profile/Components/EditProfileModal/EditProfileModal.tsx:129 | no result exactly when no entry has the id; otherwise the name of the first entry with it |
| FitnessPaths.Find | src/pages/Profile/Components/EditProfileModal/EditProfileModal.tsx:129-130 | no result exactly when no table entry has the id; otherwise the name of the entry with that id |
| FitnessPaths.IdsDistinct | src/pages/Profile/Components/EditProfileModal/EditProfileModal.tsx:33-41 | the seven ids are pairwise different, and so are the seven names |
| FitnessPaths.NamesNonEmpty | src/pages/Onboarding/index.tsx:38-88 | every fitness path has a non-empty name |
| UserDocument.Uniform | src/pages/Onboarding/index.tsx:318-326 | a record giving every muscle the same data |
| MuscleStatsPanel.Cards | src/pages/Profile/Components/MuscleStats/MuscleStats.tsx:26-34 | seven cards, one per muscle with no repeats, each muscle at its fixed place |
| MuscleStatsPanel.CardIndex | src/pages/Profile/Components/MuscleStats/MuscleStats.tsx:26-34 | each muscle's place is one of the seven card slots |
| MuscleStatsPanel.MuscleProgress | src/pages/Profile/Components/MuscleStats/MuscleStats.tsx:36-38 | a non-zero stored threshold gives xp / nextLevelXp * 100, which is within [0, 100] while xp is within [0, threshold] and above 100 once xp passes it; a zero threshold gives NaN exactly when xp is 0 |
| MuscleStatsPanel.RankTitle | src/pages/Profile/Components/MuscleStats/MuscleStats.tsx:40-46 | 20 and up is LENDÁRIO, 15-19 ÉPICO, 10-14 RARO, 5-9 AVANÇADO, below 5 INICIANTE |
| MuscleStatsPanel.RankIndex | src/pages/Profile/Components/MuscleStats/MuscleStats.tsx:40-46 | every level's title is one of the five ranks, at a known position |
| MuscleStatsPanel.RanksDistinct | src/pages/Profile/Components/MuscleStats/MuscleStats.tsx:40-46 | the five titles are pairwise different |
| MuscleStatsPanel.RankMonotone | src/pages/Profile/Components/MuscleStats/MuscleStats.tsx:40-46 | a higher level never shows a lower rank |
| MuscleStatsPanel.CardViews | src/pages/Profile/Components/MuscleStats/MuscleStats.tsx:57-60 | one view per card in card order, each showing its muscle's stored level, XP and threshold, its progress and its rank |
| MuscleStatsPanel.CardViewsCoverEveryMuscle | src/pages/Profile/Components/MuscleStats/MuscleStats.tsx:57-60 | every muscle's card shows that muscle's own stored data and rank |
| MuscleStatsPanel.ProgressCanExceedHundred | src/pages/Profile/Components/MuscleStats/MuscleStats.tsx:36-38 | 800 XP over a stored 500 shows 160% |
| EditProfile.Message | src/pages/Profile/Components/EditProfileModal/EditProfileModal.tsx:75-98 | every field's error message is non-empty |
| EditProfile.Errors.With | src/pages/Profile/Components/EditProfileModal/EditProfileModal.tsx:158-161 | setting one field's error changes that field's entry only |
| EditProfile.Errors.KeyCount | src/pages/Profile/Components/EditProfileModal/EditProfileModal.tsx:102 | the number of keys is 0 exactly when there are no errors |
| EditProfile.FormErrors | src/pages/Profile/Components/EditProfileModal/EditProfileModal.tsx:71-99 | a name error exactly when the name is blank after trimming; an age error exactly when the text is empty or parses outside 12-100; weight outside 30-300 and height outside 100-250 likewise; a focus error exactly when none is chosen; each error carries its field's message |
| EditProfile.ValidIffNoRuleFires | src/pages/Profile/Components/EditProfileModal/EditProfileModal.tsx:71-103 | the form is valid if and only if none of the six rules fires |
| EditProfile.UnparseableAgePasses | src/pages/Profile/Components/EditProfileModal/EditProfileModal.tsx:82-85 | an age text that `parseInt` reads as NaN (such as "abc") passes validation, because both comparisons are false; the payload's age is then NaN, modelled as no value |
| EditProfile.PrefilledForm | src/pages/Profile/Components/EditProfileModal/EditProfileModal.tsx:57-69 | names default to empty, numbers to empty text when missing, and focus to "bodybuilding" when missing or empty, so focus is never empty |
| EditProfile.PrefilledFocusNeverRejected | src/pages/Profile/Components/EditProfileModal/EditProfileModal.tsx:65 | a prefilled form never has a focus error |
| EditProfile.PathName | src/pages/Profile/Components/EditProfileModal/EditProfileModal.tsx:129-130 | the fitness path's name for a known focus, "Bodybuilding" for an unknown one, never empty |
| EditProfile.UpdatePayload | src/pages/Profile/Components/EditProfileModal/EditProfileModal.tsx:116-132 | the display name joins the raw names; the stored names are trimmed and the full name joins them; numbers are the parses; fitnessPath and classTitle are the path name; for a valid form, the names are non-empty without edge whitespace and every parsed number is in range |
| EditProfile.ClearedError | src/pages/Profile/Components/EditProfileModal/EditProfileModal.tsx:157-162 | the field's key stays present if it was, and its message becomes empty; other fields are unchanged |
| EditProfile.EditProfileModal.constructor | src/pages/Profile/Components/EditProfileModal/EditProfileModal.tsx:45-54 | the form is empty and there are no errors |
| EditProfile.EditProfileModal.Prefill | src/pages/Profile/Components/EditProfileModal/EditProfileModal.tsx:57-69 | when open with user data, the form is the prefilled one and the errors are cleared; otherwise nothing changes |
| EditProfile.EditProfileModal.ValidateForm | src/pages/Profile/Components/EditProfileModal/EditProfileModal.tsx:71-103 | the form is unchanged, the stored errors are FormErrors of the form, and the result is true exactly when there are none |
| EditProfile.EditProfileModal.NameRules | src/pages/Profile/Components/EditProfileModal/EditProfileModal.tsx:72-80 | the two name rules set exactly the name errors FormErrors prescribes and nothing else |
| EditProfile.EditProfileModal.MeasureRules | src/pages/Profile/Components/EditProfileModal/EditProfileModal.tsx:82-95 | the age, weight and height rules set exactly those errors FormErrors prescribes, keeping the others |
| EditProfile.EditProfileModal.HandleSubmit | src/pages/Profile/Components/EditProfileModal/EditProfileModal.tsx:105-132 | validation runs; a payload is produced exactly when the form is valid, and it is UpdatePayload of the form |
| EditProfile.EditProfileModal.HandleInputChange | src/pages/Profile/Components/EditProfileModal/EditProfileModal.tsx:150-163 | the field takes the new value and its error is blanked, not removed; everything else is unchanged |
| Onboarding.StepValid | src/pages/Onboarding/index.tsx:345-360 | step 1 needs both names non-blank; steps 2-4 need non-empty text whose parseInt reaches 12, 30 and 100 respectively (no upper bound); step 5 needs a focus; every other step is valid |
| Onboarding.AfterContinue | src/pages/Onboarding/index.tsx:293-295 | "Continue" (disabled while the step is invalid, line 392) advances exactly when the current step is valid and not the last, otherwise stays; the step stays within the seven steps |
| Onboarding.AfterBack | src/pages/Onboarding/index.tsx:339-343 | "Back" goes one step back from any step after the first and stays on the first |
| Onboarding.PressesBounded | src/pages/Onboarding/index.tsx:293-295 | n presses of "Continue" never move back and advance at most n steps |
| Onboarding.ContinueOnlyFromValidSteps | src/pages/Onboarding/index.tsx:345-360 | if n presses advance n steps, then every step passed through was valid |
| Onboarding.FinalRecord | src/pages/Onboarding/index.tsx:302-326 | onboarding completed and system activated; level 1 and 0 XP; every muscle at level 1, 0 XP, threshold 100; raw names and their join; the parses; classTitle equals fitnessPath, which is absent exactly when the focus id is unknown |
| Onboarding.RecordSeedDiffersFromEngine | src/pages/Onboarding/index.tsx:318-326 | the stored muscle threshold of 100 differs both from the engine's seed (500) and from its real first threshold (900) |
| Onboarding.OnboardingFlow.constructor | src/pages/Onboarding/index.tsx:28-36 | the wizard starts on step 0 with an empty form |
| Onboarding.OnboardingFlow.SetField | src/pages/Onboarding/index.tsx:126-236 | typing sets that field only and keeps the step |
| Onboarding.OnboardingFlow.HandleNext | src/pages/Onboarding/index.tsx:293-337 | before the last step, it advances one step with no record; on the last step, it stays and produces the final record |
| Onboarding.OnboardingFlow.HandleBack | src/pages/Onboarding/index.tsx:339-343 | the step becomes AfterBack of the old step; the form is unchanged |
| Onboarding.OnboardingFlow.PressContinue | src/pages/Onboarding/index.tsx:293-337 | the step becomes AfterContinue of the old one; a record is produced exactly when the last step is valid, and it is the final record of the form |
| Register.RegisterData.With | src/components/RegisterForm/RegisterForm.tsx:23-29 | setting one field changes that field only |
| Register.PreSubmit | src/components/RegisterForm/RegisterForm.tsx:34-60 | the checks run in order: mismatched passwords, then fewer than 6 characters, then a blank name, each with its alert; the account is created exactly when all three pass, with the email, the password and the untrimmed name |
| Register.MismatchReportedFirst | src/components/RegisterForm/RegisterForm.tsx:34-47 | with a blank name and mismatched short passwords, only the mismatch is reported |
| Register.SixCharactersSuffice | src/components/RegisterForm/RegisterForm.tsx:39-42 | a 6-character password is accepted and a 5-character one is rejected |
| Register.CreatedDocument | src/components/RegisterForm/RegisterForm.tsx:62-69 | the user document holds the email and display name, has not completed onboarding, and records the email provider |
| Register.RegisterForm.constructor | src/components/RegisterForm/RegisterForm.tsx:14-19 | all four fields start empty |
| Register.RegisterForm.HandleChange | src/components/RegisterForm/RegisterForm.tsx:23-29 | the named field takes the new value; the others are unchanged |
| Register.RegisterForm.HandleSubmit | src/components/RegisterForm/RegisterForm.tsx:31-60 | the outcome is PreSubmit of the current form: the first failing check's alert, or the sign-up request |

## Left out

- Firebase calls are not modelled: account creation, profile update, and Firestore `setDoc`/`updateDoc`. Their outcomes are the requests and documents the model produces; failures and the error-code alert mapping of `RegisterForm.tsx:75-89` and the catch blocks are outside the model.
- LevelSystem.AfterWorkoutXp: every entry's overall award sees the level the previous entry left. In the source, `addUserXp` reads `userLevel` captured when the workout started, while the XP updates chain. The two differ only when the overall track levels up within one workout. React's update batching and re-rendering are outside the model: hook calls are taken as sequential state transitions.
- Floating point: exact rationals replace IEEE doubles. This covers `Math.pow`, `* 0.3`, `* 0.1` and the division in the progress bars, so a result that double rounding would put on the other side of a floor can differ.
- `parseInt`/`parseFloat` are not implemented. A text input carries the number each would read from it, or none for NaN.
- Timestamps (`createdAt`, `updatedAt`, `onboardingCompletedAt`) are left out; they come from the clock.
- Loading flags, `alert`/`console` output, navigation and `onClose`/`onUpdate` callbacks are left out; they are UI effects with no state the model needs.
- Icons, colours, `toFixed` formatting, the radar chart and other rendering are left out, as presentation only.
- Register.PreSubmit: password length counts Dafny characters, not UTF-16 code units as JavaScript's `length` does. They differ only for characters outside the Basic Multilingual Plane.
- LevelSystem.MergeConfig: an override can give `baseXP` and `multiplier` or leave them out, but it cannot set them to `undefined` explicitly. In JavaScript the spread would then copy `undefined` over the default. An explicitly undefined `maxLevel` (`Some(None)`) and `difficultyCurve` (`Unspecified`) are modelled.
- LevelSystem.ExerciseXp: it does not reject negative inputs, as the source does not; ExerciseXpCanBeNegative exhibits the negative result.
- Levels and XP amounts are whole numbers throughout, because every caller passes integers; the source's `number` would also accept fractions and NaN.
