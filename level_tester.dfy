/** The `useLevelTester` hook: canned workouts and "force a level-up" actions that
    drive a `useLevelSystem` engine created with the default configuration. */
module LevelTester {
  import opened Wrappers
  import opened LevelSystem

  // ---------------------------------------------------------------------------
  // The fixed workouts, each exercise priced by `calculateExerciseXp`

  /** `testChestTricepsWorkout`: the chest is priced at 104 XP and the triceps at 104. */
  function ChestTricepsWorkout(): (r: seq<WorkoutEntry>)
    ensures r == [WorkoutEntry(Chest, Some(104)), WorkoutEntry(Triceps, Some(104))]
  {
    ExerciseXpOfWorkouts();
    [ WorkoutEntry(Chest, Some(ExerciseXp(Chest, Hypertrophy, 8.0, 80.0, 10.0, 3.0))),
      WorkoutEntry(Triceps, Some(ExerciseXp(Triceps, Hypertrophy, 7.0, 30.0, 12.0, 3.0))) ]
  }

  /** `testBackBicepsWorkout`: the back is priced at 87 XP and the biceps at 104. */
  function BackBicepsWorkout(): (r: seq<WorkoutEntry>)
    ensures r == [WorkoutEntry(Back, Some(87)), WorkoutEntry(Biceps, Some(104))]
  {
    ExerciseXpOfWorkouts();
    [ WorkoutEntry(Back, Some(ExerciseXp(Back, Strength, 9.0, 100.0, 8.0, 4.0))),
      WorkoutEntry(Biceps, Some(ExerciseXp(Biceps, Hypertrophy, 7.0, 25.0, 12.0, 3.0))) ]
  }

  /** `testLegWorkout`: the legs are priced at 83 XP and the core at 144. */
  function LegWorkout(): (r: seq<WorkoutEntry>)
    ensures r == [WorkoutEntry(Legs, Some(83)), WorkoutEntry(Core, Some(144))]
  {
    ExerciseXpOfWorkouts();
    [ WorkoutEntry(Legs, Some(ExerciseXp(Legs, Strength, 9.0, 120.0, 6.0, 4.0))),
      WorkoutEntry(Core, Some(ExerciseXp(Core, Endurance, 6.0, 0.0, 15.0, 3.0))) ]
  }

  /** `testShouldersWorkout`: the shoulders are priced at 115 XP. */
  function ShouldersWorkout(): (r: seq<WorkoutEntry>)
    ensures r == [WorkoutEntry(Shoulders, Some(115))]
  {
    ExerciseXpOfWorkouts();
    [ WorkoutEntry(Shoulders, Some(ExerciseXp(Shoulders, Hypertrophy, 8.0, 40.0, 10.0, 4.0))) ]
  }

  /** `testFullBodyWorkout`: all seven muscles, priced at 97, 72, 98, 97, 98, 73 and 135 XP. */
  function FullBodyWorkout(): (r: seq<WorkoutEntry>)
    ensures r == [
      WorkoutEntry(Chest, Some(97)), WorkoutEntry(Back, Some(72)), WorkoutEntry(Shoulders, Some(98)),
      WorkoutEntry(Biceps, Some(97)), WorkoutEntry(Triceps, Some(98)), WorkoutEntry(Legs, Some(73)),
      WorkoutEntry(Core, Some(135))]
  {
    ExerciseXpOfFullBody();
    [ WorkoutEntry(Chest, Some(ExerciseXp(Chest, Hypertrophy, 7.0, 70.0, 10.0, 3.0))),
      WorkoutEntry(Back, Some(ExerciseXp(Back, Strength, 8.0, 90.0, 8.0, 3.0))),
      WorkoutEntry(Shoulders, Some(ExerciseXp(Shoulders, Hypertrophy, 6.0, 35.0, 12.0, 3.0))),
      WorkoutEntry(Biceps, Some(ExerciseXp(Biceps, Hypertrophy, 6.0, 20.0, 12.0, 3.0))),
      WorkoutEntry(Triceps, Some(ExerciseXp(Triceps, Hypertrophy, 6.0, 25.0, 12.0, 3.0))),
      WorkoutEntry(Legs, Some(ExerciseXp(Legs, Strength, 8.0, 100.0, 8.0, 3.0))),
      WorkoutEntry(Core, Some(ExerciseXp(Core, Endurance, 5.0, 0.0, 15.0, 3.0))) ]
  }

  // ---------------------------------------------------------------------------
  // The forced level-ups

  /** `testLevelUp`: the overall track receives `xpToNextLevel + 1000`. Whatever
      the configuration, below the cap this is exactly one level with 1000 XP left
      over; at the cap the level stays and the XP becomes the threshold plus 1000. */
  function AfterTestLevelUp(c: LevelConfig, p: Progression): (r: Progression)
    ensures r.muscleStats == p.muscleStats
    ensures p.userLevel < MaxLevel(c) ==> r.userLevel == p.userLevel + 1 && r.userXp == 1000
    ensures p.userLevel >= MaxLevel(c) ==>
      r.userLevel == p.userLevel && r.userXp == NextLevelXp(c, p.userLevel) + 1000
  {
    var xpNeeded := LevelProgressOf(c, p.userLevel, p.userXp).xpToNextLevel;
    AfterUserXp(c, p, xpNeeded + 1000)
  }

  /** `testMuscleLevelUp(m)`: muscle `m` receives its stored `xpToNextLevel + 500`
      (and the overall track its 30% share). A record whose `xpToNextLevel` is the
      true distance to the engine's threshold always rises by one level. */
  function AfterTestMuscleLevelUp(c: LevelConfig, p: Progression, m: Muscle): (r: Progression)
    ensures var d := p.muscleStats.Get(m);
      r.muscleStats.Get(m).xp == d.xp + d.xpToNextLevel + 500
    ensures var d := p.muscleStats.Get(m);
      d.xpToNextLevel == NextLevelXp(c, d.level) - d.xp ==> r.muscleStats.Get(m).level == d.level + 1
    ensures forall n :: n != m ==> r.muscleStats.Get(n) == p.muscleStats.Get(n)
    ensures var share := CrossContribution(p.muscleStats.Get(m).xpToNextLevel + 500);
      r.userLevel == AfterUserXp(c, p, share).userLevel && r.userXp == AfterUserXp(c, p, share).userXp
  {
    var xpNeeded := p.muscleStats.Get(m).xpToNextLevel;
    AfterMuscleXp(c, p, m, xpNeeded + 500)
  }

  /** Under the default configuration the forced muscle level-up raises `m` by
      exactly one level, from the seed (500 + 500 = 1000 reaches the real
      threshold 900) as from any record `addMuscleXp` wrote, and leaves the other
      six muscles alone. */
  lemma TestMuscleLevelUpRaisesOneLevel(p: Progression, m: Muscle)
    requires MuscleCoherent(DefaultConfig, p.muscleStats.Get(m))
    ensures var r := AfterTestMuscleLevelUp(DefaultConfig, p, m);
      && r.muscleStats.Get(m).level == p.muscleStats.Get(m).level + 1
      && forall n :: n != m ==> r.muscleStats.Get(n) == p.muscleStats.Get(n)
  {
    var d := p.muscleStats.Get(m);
    if d == InitialMuscle {
      DefaultFirstThreshold();
    }
  }

  // ---------------------------------------------------------------------------
  // Scenarios from a freshly reset engine

  lemma ExerciseXpOfWorkouts()
    ensures ExerciseXp(Chest, Hypertrophy, 8.0, 80.0, 10.0, 3.0) == 104
    ensures ExerciseXp(Triceps, Hypertrophy, 7.0, 30.0, 12.0, 3.0) == 104
    ensures ExerciseXp(Back, Strength, 9.0, 100.0, 8.0, 4.0) == 87
    ensures ExerciseXp(Biceps, Hypertrophy, 7.0, 25.0, 12.0, 3.0) == 104
    ensures ExerciseXp(Legs, Strength, 9.0, 120.0, 6.0, 4.0) == 83
    ensures ExerciseXp(Core, Endurance, 6.0, 0.0, 15.0, 3.0) == 144
    ensures ExerciseXp(Shoulders, Hypertrophy, 8.0, 40.0, 10.0, 4.0) == 115
  {
  }

  lemma ExerciseXpOfFullBody()
    ensures ExerciseXp(Chest, Hypertrophy, 7.0, 70.0, 10.0, 3.0) == 97
    ensures ExerciseXp(Back, Strength, 8.0, 90.0, 8.0, 3.0) == 72
    ensures ExerciseXp(Shoulders, Hypertrophy, 6.0, 35.0, 12.0, 3.0) == 98
    ensures ExerciseXp(Biceps, Hypertrophy, 6.0, 20.0, 12.0, 3.0) == 97
    ensures ExerciseXp(Triceps, Hypertrophy, 6.0, 25.0, 12.0, 3.0) == 98
    ensures ExerciseXp(Legs, Strength, 8.0, 100.0, 8.0, 3.0) == 73
    ensures ExerciseXp(Core, Endurance, 5.0, 0.0, 15.0, 3.0) == 135
  {
  }

  /** A first award below the real threshold of 900 keeps a seeded muscle at
      level 1, with the stale 500 still shown as its `nextLevelXp`. */
  lemma SeededAward(a: int)
    requires 0 <= a < 900
    ensures MuscleAfterXp(DefaultConfig, InitialMuscle, a) == MuscleLevel(1, a, 500, 900 - a)
  {
    DefaultFirstThreshold();
  }

  /** A workout naming distinct muscles, each award positive and below 900, run
      from the reset state: a named muscle ends at level 1 holding its award, an
      unnamed one keeps its seed. */
  lemma SmallWorkoutMuscle(c: LevelConfig, p: Progression, w: seq<WorkoutEntry>, j: nat)
    requires c == DefaultConfig && p == InitialProgression
    requires j < |w|
    requires forall i, k :: 0 <= i < k < |w| ==> w[i].muscle != w[k].muscle
    requires w[j].amount.Some? && 0 < w[j].amount.value < 900
    ensures AfterWorkoutXp(c, p, w).muscleStats.Get(w[j].muscle)
      == MuscleLevel(1, w[j].amount.value, 500, 900 - w[j].amount.value)
  {
    assert InitialMuscleStats.Get(w[j].muscle) == InitialMuscle;
    WorkoutAppliesEachEntryOnce(c, p, w, j);
    SeededAward(w[j].amount.value);
  }

  lemma UnnamedMuscle(c: LevelConfig, p: Progression, w: seq<WorkoutEntry>, m: Muscle)
    requires p == InitialProgression
    requires forall i :: 0 <= i < |w| ==> w[i].muscle != m
    ensures AfterWorkoutXp(c, p, w).muscleStats.Get(m) == InitialMuscle
  {
    assert InitialMuscleStats.Get(m) == InitialMuscle;
    WorkoutLeavesOthers(c, p, w, m);
  }

  /** Two entries on distinct muscles, both applying: the overall share is the
      sum of the two 30% shares. */
  lemma CrossTotalOfTwo(m1: Muscle, a1: int, m2: Muscle, a2: int)
    requires a1 > 0 && a2 > 0
    ensures CrossTotal([WorkoutEntry(m1, Some(a1)), WorkoutEntry(m2, Some(a2))])
      == CrossContribution(a1) + CrossContribution(a2)
  {
    var w := [WorkoutEntry(m1, Some(a1)), WorkoutEntry(m2, Some(a2))];
    assert w[1..] == [w[1]] && w[1..][1..] == [];
    assert CrossTotal(w[1..]) == CrossContribution(a2) + CrossTotal(w[1..][1..]);
  }

  /** A workout naming distinct muscles, each award positive and below 900 and
      the 30% shares together below 900, run from the reset state: every named
      muscle holds its award at level 1, every other muscle keeps its seed, and
      the overall track stays at level 1 holding the sum of the shares. */
  lemma WorkoutFromReset(c: LevelConfig, p: Progression, w: seq<WorkoutEntry>)
    requires c == DefaultConfig && p == InitialProgression
    requires forall i, k :: 0 <= i < k < |w| ==> w[i].muscle != w[k].muscle
    requires forall i :: 0 <= i < |w| ==> w[i].amount.Some? && 0 < w[i].amount.value < 900
    requires CrossTotal(w) < 900
    ensures var r := AfterWorkoutXp(c, p, w);
      && (forall i :: 0 <= i < |w| ==>
            r.muscleStats.Get(w[i].muscle) == MuscleLevel(1, w[i].amount.value, 500, 900 - w[i].amount.value))
      && (forall n :: Untouched(w, n) ==> r.muscleStats.Get(n) == InitialMuscle)
      && r.userLevel == 1 && r.userXp == CrossTotal(w)
  {
    forall i | 0 <= i < |w|
      ensures AfterWorkoutXp(c, p, w).muscleStats.Get(w[i].muscle)
        == MuscleLevel(1, w[i].amount.value, 500, 900 - w[i].amount.value)
    {
      SmallWorkoutMuscle(c, p, w, i);
    }
    forall n | Untouched(w, n)
      ensures AfterWorkoutXp(c, p, w).muscleStats.Get(n) == InitialMuscle
    {
      assert InitialMuscleStats.Get(n) == InitialMuscle;
      WorkoutLeavesOthers(c, p, w, n);
    }
    DefaultFirstThreshold();
    WorkoutOverallWithoutLevelUp(c, p, w);
  }

  /** Both muscles gain 104 XP and stay at level 1 (below 900); the overall track
      gains 31 + 31 = 62; the other five muscles keep their seed. */
  lemma ChestTricepsFromReset(c: LevelConfig, p: Progression)
    requires c == DefaultConfig && p == InitialProgression
    ensures var r := AfterWorkoutXp(c, p, ChestTricepsWorkout());
      && r.muscleStats.Get(Chest) == MuscleLevel(1, 104, 500, 796)
      && r.muscleStats.Get(Triceps) == MuscleLevel(1, 104, 500, 796)
      && (forall n :: n != Chest && n != Triceps ==> r.muscleStats.Get(n) == InitialMuscle)
      && r.userLevel == 1 && r.userXp == 62
  {
    var w := [WorkoutEntry(Chest, Some(104)), WorkoutEntry(Triceps, Some(104))];
    CrossTotalOfTwo(Chest, 104, Triceps, 104);
    assert CrossContribution(104) == 31;
    WorkoutFromReset(c, p, w);
    assert w[0].muscle == Chest && w[1].muscle == Triceps;
  }

  /** The back gains 87 and the biceps 104, both staying at level 1; the overall
      track gains 26 + 31 = 57. */
  lemma BackBicepsFromReset(c: LevelConfig, p: Progression)
    requires c == DefaultConfig && p == InitialProgression
    ensures var r := AfterWorkoutXp(c, p, BackBicepsWorkout());
      && r.muscleStats.Get(Back) == MuscleLevel(1, 87, 500, 813)
      && r.muscleStats.Get(Biceps) == MuscleLevel(1, 104, 500, 796)
      && (forall n :: n != Back && n != Biceps ==> r.muscleStats.Get(n) == InitialMuscle)
      && r.userLevel == 1 && r.userXp == 57
  {
    var w := [WorkoutEntry(Back, Some(87)), WorkoutEntry(Biceps, Some(104))];
    CrossTotalOfTwo(Back, 87, Biceps, 104);
    assert CrossContribution(87) == 26 && CrossContribution(104) == 31;
    WorkoutFromReset(c, p, w);
    assert w[0].muscle == Back && w[1].muscle == Biceps;
  }

  /** The legs gain 83 and the core 144, both staying at level 1; the overall
      track gains 24 + 43 = 67. */
  lemma LegFromReset(c: LevelConfig, p: Progression)
    requires c == DefaultConfig && p == InitialProgression
    ensures var r := AfterWorkoutXp(c, p, LegWorkout());
      && r.muscleStats.Get(Legs) == MuscleLevel(1, 83, 500, 817)
      && r.muscleStats.Get(Core) == MuscleLevel(1, 144, 500, 756)
      && (forall n :: n != Legs && n != Core ==> r.muscleStats.Get(n) == InitialMuscle)
      && r.userLevel == 1 && r.userXp == 67
  {
    var w := [WorkoutEntry(Legs, Some(83)), WorkoutEntry(Core, Some(144))];
    CrossTotalOfTwo(Legs, 83, Core, 144);
    assert CrossContribution(83) == 24 && CrossContribution(144) == 43;
    WorkoutFromReset(c, p, w);
    assert w[0].muscle == Legs && w[1].muscle == Core;
  }

  /** The shoulders gain 115 and stay at level 1; the overall track gains 34. */
  lemma ShouldersFromReset(c: LevelConfig, p: Progression)
    requires c == DefaultConfig && p == InitialProgression
    ensures var r := AfterWorkoutXp(c, p, ShouldersWorkout());
      && r.muscleStats.Get(Shoulders) == MuscleLevel(1, 115, 500, 785)
      && (forall n :: n != Shoulders ==> r.muscleStats.Get(n) == InitialMuscle)
      && r.userLevel == 1 && r.userXp == 34
  {
    var w := [WorkoutEntry(Shoulders, Some(115))];
    assert w[1..] == [];
    assert CrossTotal(w) == CrossContribution(115) + CrossTotal(w[1..]);
    assert CrossContribution(115) == 34;
    WorkoutFromReset(c, p, w);
    assert w[0].muscle == Shoulders;
  }

  lemma FullBodyCrossTotal()
    ensures CrossTotal([
      WorkoutEntry(Chest, Some(97)), WorkoutEntry(Back, Some(72)), WorkoutEntry(Shoulders, Some(98)),
      WorkoutEntry(Biceps, Some(97)), WorkoutEntry(Triceps, Some(98)), WorkoutEntry(Legs, Some(73)),
      WorkoutEntry(Core, Some(135))]) == 198
  {
    assert CrossContribution(97) == 29 && CrossContribution(72) == 21 && CrossContribution(98) == 29;
    assert CrossContribution(73) == 21 && CrossContribution(135) == 40;
  }

  /** The full-body workout touches all seven muscles; none of them and not the
      overall track leaves level 1, and the overall track ends at
      29 + 21 + 29 + 29 + 29 + 21 + 40 = 198. */
  lemma FullBodyFromReset(c: LevelConfig, p: Progression)
    requires c == DefaultConfig && p == InitialProgression
    ensures var r := AfterWorkoutXp(c, p, FullBodyWorkout());
      && r.muscleStats.Get(Chest) == MuscleLevel(1, 97, 500, 803)
      && r.muscleStats.Get(Back) == MuscleLevel(1, 72, 500, 828)
      && r.muscleStats.Get(Shoulders) == MuscleLevel(1, 98, 500, 802)
      && r.muscleStats.Get(Biceps) == MuscleLevel(1, 97, 500, 803)
      && r.muscleStats.Get(Triceps) == MuscleLevel(1, 98, 500, 802)
      && r.muscleStats.Get(Legs) == MuscleLevel(1, 73, 500, 827)
      && r.muscleStats.Get(Core) == MuscleLevel(1, 135, 500, 765)
      && r.userLevel == 1 && r.userXp == 198
  {
    var w := [
      WorkoutEntry(Chest, Some(97)), WorkoutEntry(Back, Some(72)), WorkoutEntry(Shoulders, Some(98)),
      WorkoutEntry(Biceps, Some(97)), WorkoutEntry(Triceps, Some(98)), WorkoutEntry(Legs, Some(73)),
      WorkoutEntry(Core, Some(135))];
    FullBodyCrossTotal();
    WorkoutFromReset(c, p, w);
    assert w[0].muscle == Chest && w[1].muscle == Back && w[2].muscle == Shoulders;
    assert w[3].muscle == Biceps && w[4].muscle == Triceps && w[5].muscle == Legs && w[6].muscle == Core;
  }

  // ---------------------------------------------------------------------------
  // The tester object

  class Tester {
    const levelSystem: LevelSystemHook

    ghost predicate Valid()
      reads this, levelSystem
    {
      levelSystem.Valid()
    }

    /** `useLevelTester()`: a tester over an engine with the default configuration. */
    constructor ()
      ensures fresh(levelSystem) && Valid()
      ensures levelSystem.config == DefaultConfig
      ensures levelSystem.State() == InitialProgression
    {
      levelSystem := new LevelSystemHook(NoOverride);
    }

    method TestLevelUp()
      requires Valid()
      modifies levelSystem
      ensures Valid()
      ensures levelSystem.State() == AfterTestLevelUp(levelSystem.config, old(levelSystem.State()))
    {
      var xpNeeded := levelSystem.UserLevelProgress().xpToNextLevel;
      levelSystem.AddUserXp(xpNeeded + 1000);
    }

    method TestMuscleLevelUp(m: Muscle)
      requires Valid()
      modifies levelSystem
      ensures Valid()
      ensures levelSystem.State() == AfterTestMuscleLevelUp(levelSystem.config, old(levelSystem.State()), m)
      ensures levelSystem.config == DefaultConfig ==>
        levelSystem.muscleStats.Get(m).level == old(levelSystem.muscleStats.Get(m).level) + 1
    {
      var muscleData := levelSystem.muscleStats.Get(m);
      var xpNeeded := muscleData.xpToNextLevel;
      if levelSystem.config == DefaultConfig {
        TestMuscleLevelUpRaisesOneLevel(levelSystem.State(), m);
      }
      levelSystem.AddMuscleXp(m, xpNeeded + 500);
    }

    method TestChestTricepsWorkout()
      requires Valid()
      modifies levelSystem
      ensures Valid()
      ensures levelSystem.State() == AfterWorkoutXp(levelSystem.config, old(levelSystem.State()), ChestTricepsWorkout())
    {
      levelSystem.AddWorkoutXp(ChestTricepsWorkout());
    }

    method TestBackBicepsWorkout()
      requires Valid()
      modifies levelSystem
      ensures Valid()
      ensures levelSystem.State() == AfterWorkoutXp(levelSystem.config, old(levelSystem.State()), BackBicepsWorkout())
    {
      levelSystem.AddWorkoutXp(BackBicepsWorkout());
    }

    method TestLegWorkout()
      requires Valid()
      modifies levelSystem
      ensures Valid()
      ensures levelSystem.State() == AfterWorkoutXp(levelSystem.config, old(levelSystem.State()), LegWorkout())
    {
      levelSystem.AddWorkoutXp(LegWorkout());
    }

    method TestShouldersWorkout()
      requires Valid()
      modifies levelSystem
      ensures Valid()
      ensures levelSystem.State() == AfterWorkoutXp(levelSystem.config, old(levelSystem.State()), ShouldersWorkout())
    {
      levelSystem.AddWorkoutXp(ShouldersWorkout());
    }

    method TestFullBodyWorkout()
      requires Valid()
      modifies levelSystem
      ensures Valid()
      ensures levelSystem.State() == AfterWorkoutXp(levelSystem.config, old(levelSystem.State()), FullBodyWorkout())
    {
      levelSystem.AddWorkoutXp(FullBodyWorkout());
    }
  }
}
