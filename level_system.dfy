/** The XP and levelling engine of the `useLevelSystem` hook.

    The hook keeps three pieces of state, the overall level, the overall XP and
    seven per-muscle records, and offers operations that add XP to them. Each
    operation is specified by a pure transition function over a `Progression`
    value (`AfterUserXp`, `AfterMuscleXp`, `AfterWorkoutXp`); the class
    `LevelSystemHook` at the end holds the state and its methods are proved
    against those functions. Calls are strictly sequential: every call sees the
    state the previous call left (React's batching is not modelled). */
module LevelSystem {
  import opened Wrappers
  import opened JsNumber

  // ---------------------------------------------------------------------------
  // Configuration

  /** `difficultyCurve`; `Unspecified` is an explicitly `undefined` override,
      which the threshold function treats like `Linear`. */
  datatype Curve = Exponential | Quadratic | Linear | Unspecified

  datatype LevelConfig = LevelConfig(
    baseXP: real,
    multiplier: real,
    maxLevel: Option<int>,
    difficultyCurve: Curve)

  /** `DEFAULT_LEVEL_CONFIG`. */
  const DefaultConfig: LevelConfig := LevelConfig(500.0, 1.8, Some(50), Exponential)

  /** A `Partial<LevelConfig>` handed to the hook: `None` is an absent key;
      `maxLevel: Some(None)` is a key present with value `undefined`. */
  datatype ConfigOverride = ConfigOverride(
    baseXP: Option<real>,
    multiplier: Option<real>,
    maxLevel: Option<Option<int>>,
    difficultyCurve: Option<Curve>)

  const NoOverride: ConfigOverride := ConfigOverride(None, None, None, None)

  /** `{ ...DEFAULT_LEVEL_CONFIG, ...initialConfig }`: every key present in the
      override wins, every other key keeps its default. */
  function MergeConfig(o: ConfigOverride): (c: LevelConfig)
    ensures o == NoOverride ==> c == DefaultConfig
    ensures o.baseXP.Some? ==> c.baseXP == o.baseXP.value
    ensures o.multiplier.Some? ==> c.multiplier == o.multiplier.value
    ensures o.maxLevel.Some? ==> c.maxLevel == o.maxLevel.value
    ensures o.difficultyCurve.Some? ==> c.difficultyCurve == o.difficultyCurve.value
    ensures o.baseXP.None? ==> c.baseXP == DefaultConfig.baseXP
    ensures o.multiplier.None? ==> c.multiplier == DefaultConfig.multiplier
    ensures o.maxLevel.None? ==> c.maxLevel == DefaultConfig.maxLevel
    ensures o.difficultyCurve.None? ==> c.difficultyCurve == DefaultConfig.difficultyCurve
  {
    LevelConfig(
      o.baseXP.GetOr(DefaultConfig.baseXP),
      o.multiplier.GetOr(DefaultConfig.multiplier),
      o.maxLevel.GetOr(DefaultConfig.maxLevel),
      o.difficultyCurve.GetOr(DefaultConfig.difficultyCurve))
  }

  /** `config.maxLevel || 50`: a missing or zero cap means 50. */
  function MaxLevel(c: LevelConfig): (r: int)
    ensures r != 0
    ensures c.maxLevel.Some? && c.maxLevel.value != 0 ==> r == c.maxLevel.value
    ensures c.maxLevel.None? || c.maxLevel.value == 0 ==> r == 50
  {
    match c.maxLevel
    case None => 50
    case Some(m) => if m == 0 then 50 else m
  }

  // ---------------------------------------------------------------------------
  // Thresholds

  function Pow(x: real, n: nat): real {
    if n == 0 then 1.0 else x * Pow(x, n - 1)
  }

  /** `calculateXpForLevel`: the XP threshold of `level`, zero at and below level 1. */
  function XpForLevel(c: LevelConfig, level: int): (r: int)
    ensures level <= 1 ==> r == 0
  {
    if level <= 1 then 0
    else match c.difficultyCurve
      case Exponential => (c.baseXP * Pow(c.multiplier, (level - 1) as nat)).Floor
      case Quadratic => (c.baseXP * (level * level) as real).Floor
      case _ => (c.baseXP * c.multiplier * (level - 1) as real).Floor
  }

  /** `calculateNextLevelXp`: the threshold of the level after `level`. */
  function NextLevelXp(c: LevelConfig, level: int): (r: int)
    ensures r == XpForLevel(c, level + 1)
    ensures level <= 0 ==> r == 0
  {
    XpForLevel(c, level + 1)
  }

  lemma {:induction false} PowAtLeastOne(x: real, n: nat)
    requires x >= 1.0
    ensures Pow(x, n) >= 1.0
  {
    if n > 0 {
      PowAtLeastOne(x, n - 1);
      ScaleUp(x, Pow(x, n - 1));
    }
  }

  lemma ScaleUp(k: real, y: real)
    requires k >= 1.0 && y >= 0.0
    ensures k * y >= y
  {
    assert k * y - y == (k - 1.0) * y;
  }

  lemma ScaleNonNegative(a: real, b: real)
    requires a >= 0.0 && b >= 0.0
    ensures a * b >= 0.0
  {
  }

  lemma ScaleMono(a: real, x: real, y: real)
    requires a >= 0.0 && x <= y
    ensures a * x <= a * y
  {
    assert a * y - a * x == a * (y - x);
    ScaleNonNegative(a, y - x);
  }

  lemma ExponentialStep(c: LevelConfig, level: int)
    requires c.baseXP >= 0.0 && c.multiplier >= 1.0 && c.difficultyCurve == Exponential && level >= 2
    ensures XpForLevel(c, level) <= NextLevelXp(c, level)
  {
    var n: nat := level - 1;
    var p := Pow(c.multiplier, n);
    PowAtLeastOne(c.multiplier, n);
    assert Pow(c.multiplier, n + 1) == c.multiplier * p;
    ScaleUp(c.multiplier, p);
    ScaleMono(c.baseXP, p, c.multiplier * p);
  }

  lemma QuadraticStep(base: real, level: int)
    requires base >= 0.0 && level >= 1
    ensures (base * (level * level) as real).Floor <= (base * ((level + 1) * (level + 1)) as real).Floor
  {
    ScaleMono(base, (level * level) as real, ((level + 1) * (level + 1)) as real);
  }

  lemma LinearStep(base: real, m: real, level: int)
    requires base >= 0.0 && m >= 1.0 && level >= 1
    ensures 0 <= (base * m * (level - 1) as real).Floor <= (base * m * level as real).Floor
  {
    ScaleNonNegative(base, m);
    ScaleMono(base * m, (level - 1) as real, level as real);
    ScaleNonNegative(base * m, (level - 1) as real);
  }

  /** Thresholds never decrease as the level grows, for every curve, provided
      the base is non-negative and (except for the quadratic curve) the
      multiplier is at least 1. */
  lemma ThresholdsNonDecreasing(c: LevelConfig, level: int)
    requires c.baseXP >= 0.0
    requires c.difficultyCurve == Quadratic || c.multiplier >= 1.0
    ensures XpForLevel(c, level) <= NextLevelXp(c, level)
  {
    if level == 1 {
      match c.difficultyCurve
      case Exponential =>
        assert Pow(c.multiplier, 1) == c.multiplier;
        ScaleNonNegative(c.baseXP, c.multiplier);
      case Quadratic =>
        ScaleNonNegative(c.baseXP, 4.0);
      case _ =>
        LinearStep(c.baseXP, c.multiplier, 2);
    } else if level > 1 {
      match c.difficultyCurve
      case Exponential => ExponentialStep(c, level);
      case Quadratic => QuadraticStep(c.baseXP, level);
      case _ => LinearStep(c.baseXP, c.multiplier, level);
    }
  }

  /** Under the default configuration the first threshold is 500 * 1.8 = 900. */
  lemma DefaultFirstThreshold()
    ensures XpForLevel(DefaultConfig, 1) == 0
    ensures NextLevelXp(DefaultConfig, 1) == 900
  {
    assert Pow(1.8, 1) == 1.8 * Pow(1.8, 0);
  }

  /** Under the default configuration thresholds strictly increase from level 1 on. */
  lemma DefaultThresholdsIncrease(level: int)
    requires level >= 1
    ensures XpForLevel(DefaultConfig, level) < NextLevelXp(DefaultConfig, level)
  {
    if level == 1 {
      DefaultFirstThreshold();
    } else {
      var p := Pow(1.8, (level - 1) as nat);
      PowAtLeastOne(1.8, (level - 1) as nat);
      assert Pow(1.8, level as nat) == 1.8 * p;
      assert 500.0 * (1.8 * p) >= 500.0 * p + 1.0;
    }
  }

  /** A multiplier above 1 does not by itself make thresholds strictly increase:
      with base 1 and multiplier 1.1 the floors of 1.1 and 1.21 are both 1. */
  lemma FloorCanFlattenThresholds()
    ensures var c := LevelConfig(1.0, 1.1, Some(50), Exponential);
      NextLevelXp(c, 1) == NextLevelXp(c, 2) == 1
  {
    var c := LevelConfig(1.0, 1.1, Some(50), Exponential);
    assert Pow(1.1, 1) == 1.1 by { assert Pow(1.1, 0) == 1.0; }
    assert Pow(1.1, 2) == 1.21;
  }

  /** Without a multiplier of at least 1 thresholds can fall: on an exponential
      curve with base 500 and multiplier 0.5, level 2 needs 250 and level 3 only 125. */
  lemma ThresholdsCanFall()
    ensures var c := LevelConfig(500.0, 0.5, Some(50), Exponential);
      XpForLevel(c, 2) == 250 && NextLevelXp(c, 2) == 125
  {
    assert Pow(0.5, 1) == 0.5 by { assert Pow(0.5, 0) == 1.0; }
    assert Pow(0.5, 2) == 0.25;
  }

  // ---------------------------------------------------------------------------
  // State

  datatype Muscle = Chest | Back | Shoulders | Biceps | Triceps | Legs | Core

  /** The muscles in the key order of `INITIAL_MUSCLE_STATS`, which every update
      preserves. */
  const AllMuscles: seq<Muscle> := [Chest, Back, Shoulders, Biceps, Triceps, Legs, Core]

  datatype MuscleLevel = MuscleLevel(level: int, xp: int, nextLevelXp: int, xpToNextLevel: int)

  /** The `MuscleStats` record: exactly one entry per muscle. */
  datatype MuscleStats = MuscleStats(
    chest: MuscleLevel, back: MuscleLevel, shoulders: MuscleLevel, biceps: MuscleLevel,
    triceps: MuscleLevel, legs: MuscleLevel, core: MuscleLevel)
  {
    /** `muscleStats[m]` */
    function Get(m: Muscle): MuscleLevel {
      match m
      case Chest => chest
      case Back => back
      case Shoulders => shoulders
      case Biceps => biceps
      case Triceps => triceps
      case Legs => legs
      case Core => core
    }

    /** `{ ...muscleStats, [m]: v }`: entry `m` replaced, every other entry kept. */
    function With(m: Muscle, v: MuscleLevel): (r: MuscleStats)
      ensures r.Get(m) == v
      ensures forall n :: n != m ==> r.Get(n) == Get(n)
    {
      match m
      case Chest => this.(chest := v)
      case Back => this.(back := v)
      case Shoulders => this.(shoulders := v)
      case Biceps => this.(biceps := v)
      case Triceps => this.(triceps := v)
      case Legs => this.(legs := v)
      case Core => this.(core := v)
    }
  }

  /** Every muscle's seed in `INITIAL_MUSCLE_STATS`: level 1, no XP, and the
      literal 500 as both `nextLevelXp` and `xpToNextLevel`. */
  const InitialMuscle: MuscleLevel := MuscleLevel(1, 0, 500, 500)

  const InitialMuscleStats: MuscleStats := MuscleStats(
    InitialMuscle, InitialMuscle, InitialMuscle, InitialMuscle,
    InitialMuscle, InitialMuscle, InitialMuscle)

  /** The hook's whole state: `userLevel`, `userXp` and `muscleStats`. */
  datatype Progression = Progression(userLevel: int, userXp: int, muscleStats: MuscleStats)

  const InitialProgression: Progression := Progression(1, 0, InitialMuscleStats)

  // ---------------------------------------------------------------------------
  // Transitions

  function Max(a: int, b: int): int {
    if a >= b then a else b
  }

  /** `addUserXp(amount)`: at most one level per call, only below the cap; after a
      level-up the stored XP is the excess over the threshold just crossed
      (never negative), otherwise the amount simply accumulates. Negative
      amounts are accepted. */
  function AfterUserXp(c: LevelConfig, p: Progression, amount: int): (r: Progression)
    ensures r.muscleStats == p.muscleStats
    ensures r.userLevel == p.userLevel || r.userLevel == p.userLevel + 1
    ensures r.userLevel == p.userLevel + 1 <==>
      p.userXp + amount >= NextLevelXp(c, p.userLevel) && p.userLevel < MaxLevel(c)
    ensures r.userLevel == p.userLevel + 1 ==>
      r.userXp >= 0 && r.userXp == Max(0, p.userXp + amount - NextLevelXp(c, p.userLevel))
    ensures r.userLevel == p.userLevel ==> r.userXp == p.userXp + amount
  {
    var newXp := p.userXp + amount;
    if newXp >= NextLevelXp(c, p.userLevel) && p.userLevel < MaxLevel(c) then
      var newLevel := p.userLevel + 1;
      p.(userLevel := newLevel, userXp := Max(0, newXp - XpForLevel(c, newLevel)))
    else
      p.(userXp := newXp)
  }

  /** The muscle-record part of `addMuscleXp(m, amount)`: at most one level per
      call and no cap; the XP is never reduced; `xpToNextLevel` always measures
      the distance to the engine's threshold for the new level, while the stored
      `nextLevelXp` is refreshed only on a level-up. */
  function MuscleAfterXp(c: LevelConfig, d: MuscleLevel, amount: int): (r: MuscleLevel)
    ensures r.xp == d.xp + amount
    ensures r.level == d.level || r.level == d.level + 1
    ensures r.level == d.level + 1 <==> d.xp + amount >= NextLevelXp(c, d.level)
    ensures r.xpToNextLevel == NextLevelXp(c, r.level) - r.xp
    ensures r.nextLevelXp == if r.level == d.level then d.nextLevelXp else NextLevelXp(c, r.level)
  {
    var newXp := d.xp + amount;
    var nextLevelXp := NextLevelXp(c, d.level);
    if newXp >= nextLevelXp then
      var newLevel := d.level + 1;
      var newNextLevelXp := NextLevelXp(c, newLevel);
      MuscleLevel(newLevel, newXp, newNextLevelXp, newNextLevelXp - newXp)
    else
      d.(xp := newXp, xpToNextLevel := nextLevelXp - newXp)
  }

  /** `Math.floor(amount * 0.3)`: the share of a muscle award that goes to the
      overall track, 30% rounded down. */
  function CrossContribution(amount: int): (r: int)
    ensures 10 * r <= 3 * amount < 10 * r + 10
  {
    (amount as real * 0.3).Floor
  }

  /** `addMuscleXp(m, amount)`: muscle `m` is updated as `MuscleAfterXp` says, the
      other six are untouched, and the overall track then receives 30% of the
      amount exactly as `addUserXp` would. */
  function AfterMuscleXp(c: LevelConfig, p: Progression, m: Muscle, amount: int): (r: Progression)
    ensures r.muscleStats.Get(m) == MuscleAfterXp(c, p.muscleStats.Get(m), amount)
    ensures forall n :: n != m ==> r.muscleStats.Get(n) == p.muscleStats.Get(n)
    ensures r.userLevel == AfterUserXp(c, p, CrossContribution(amount)).userLevel
    ensures r.userXp == AfterUserXp(c, p, CrossContribution(amount)).userXp
  {
    var d := MuscleAfterXp(c, p.muscleStats.Get(m), amount);
    AfterUserXp(c, p.(muscleStats := p.muscleStats.With(m, d)), CrossContribution(amount))
  }

  /** One `[muscle, xp]` pair of `Object.entries(muscleXp)`; an absent value is `None`. */
  datatype WorkoutEntry = WorkoutEntry(muscle: Muscle, amount: Option<int>)

  /** `xp && xp > 0`: only present, positive amounts are applied. */
  predicate Applies(e: WorkoutEntry) {
    e.amount.Some? && e.amount.value > 0
  }

  /** One entry of a workout: a skipped entry changes nothing, an applying one
      awards its amount to its muscle. */
  function ApplyEntry(c: LevelConfig, p: Progression, e: WorkoutEntry): (r: Progression)
    ensures !Applies(e) ==> r == p
    ensures Applies(e) ==> r.muscleStats.Get(e.muscle) == MuscleAfterXp(c, p.muscleStats.Get(e.muscle), e.amount.value)
    ensures Applies(e) ==> forall n :: n != e.muscle ==> r.muscleStats.Get(n) == p.muscleStats.Get(n)
  {
    if Applies(e) then AfterMuscleXp(c, p, e.muscle, e.amount.value) else p
  }

  /** `addWorkoutXp(entries)`: `addMuscleXp` once per applying entry, in order. */
  function AfterWorkoutXp(c: LevelConfig, p: Progression, entries: seq<WorkoutEntry>): (r: Progression)
    ensures entries == [] ==> r == p
    ensures |entries| == 1 ==> r == ApplyEntry(c, p, entries[0])
    decreases |entries|
  {
    if entries == [] then p
    else AfterWorkoutXp(c, ApplyEntry(c, p, entries[0]), entries[1..])
  }

  /** The sum of the 30% shares of the applying entries of a workout. */
  function CrossTotal(entries: seq<WorkoutEntry>): int
    decreases |entries|
  {
    if entries == [] then 0
    else
      var share := if Applies(entries[0]) then CrossContribution(entries[0].amount.value) else 0;
      share + CrossTotal(entries[1..])
  }

  /** The number of applying entries of a workout. */
  function AppliedCount(entries: seq<WorkoutEntry>): (n: nat)
    ensures n <= |entries|
    ensures n == 0 <==> forall i :: 0 <= i < |entries| ==> !Applies(entries[i])
    decreases |entries|
  {
    if entries == [] then 0
    else
      var rest := AppliedCount(entries[1..]);
      assert forall i :: 1 <= i < |entries| ==> entries[i] == entries[1..][i - 1];
      (if Applies(entries[0]) then 1 else 0) + rest
  }

  /** A workout is its entries applied one after the other: running a workout
      in two parts gives the same state as running it whole. */
  lemma {:induction false} WorkoutSequential(c: LevelConfig, p: Progression, a: seq<WorkoutEntry>, b: seq<WorkoutEntry>)
    ensures AfterWorkoutXp(c, p, a + b) == AfterWorkoutXp(c, AfterWorkoutXp(c, p, a), b)
    decreases |a|
  {
    if a == [] {
      assert a + b == b;
    } else {
      assert (a + b)[0] == a[0];
      assert (a + b)[1..] == a[1..] + b;
      WorkoutSequential(c, ApplyEntry(c, p, a[0]), a[1..], b);
    }
  }

  /** No applying entry names `m`. */
  predicate Untouched(entries: seq<WorkoutEntry>, m: Muscle) {
    forall i :: 0 <= i < |entries| && entries[i].muscle == m ==> !Applies(entries[i])
  }

  /** A muscle that no applying entry names keeps its record. */
  lemma {:induction false} WorkoutLeavesOthers(c: LevelConfig, p: Progression, entries: seq<WorkoutEntry>, m: Muscle)
    requires Untouched(entries, m)
    ensures AfterWorkoutXp(c, p, entries).muscleStats.Get(m) == p.muscleStats.Get(m)
    decreases |entries|
  {
    if entries != [] {
      assert entries[0].muscle == m ==> !Applies(entries[0]);
      WorkoutLeavesOthers(c, ApplyEntry(c, p, entries[0]), entries[1..], m);
    }
  }

  /** In a workout whose entries name distinct muscles, the muscle of an applying
      entry ends exactly as one `addMuscleXp` of its amount leaves it. */
  lemma {:induction false} WorkoutAppliesEachEntryOnce(c: LevelConfig, p: Progression, entries: seq<WorkoutEntry>, i: nat)
    requires i < |entries| && Applies(entries[i])
    requires forall j, k :: 0 <= j < k < |entries| ==> entries[j].muscle != entries[k].muscle
    ensures AfterWorkoutXp(c, p, entries).muscleStats.Get(entries[i].muscle)
      == MuscleAfterXp(c, p.muscleStats.Get(entries[i].muscle), entries[i].amount.value)
    decreases |entries|
  {
    var m := entries[i].muscle;
    var q := ApplyEntry(c, p, entries[0]);
    if i == 0 {
      assert Untouched(entries[1..], m) by {
        forall j | 0 <= j < |entries[1..]| ensures entries[1..][j].muscle != m {
          assert entries[1..][j] == entries[j + 1];
        }
      }
      WorkoutLeavesOthers(c, q, entries[1..], m);
    } else {
      assert entries[0].muscle != m;
      assert q.muscleStats.Get(m) == p.muscleStats.Get(m);
      assert entries[1..][i - 1] == entries[i];
      WorkoutAppliesEachEntryOnce(c, q, entries[1..], i - 1);
    }
  }

  /** Shares are never negative, since only positive amounts apply. */
  lemma {:induction false} CrossTotalNonNegative(entries: seq<WorkoutEntry>)
    ensures CrossTotal(entries) >= 0
    decreases |entries|
  {
    if entries != [] {
      CrossTotalNonNegative(entries[1..]);
    }
  }

  /** While the shares of a workout stay below the overall threshold, the overall
      level does not move and the overall XP grows by the sum of the shares,
      whatever the order of the entries. */
  lemma {:induction false} WorkoutOverallWithoutLevelUp(c: LevelConfig, p: Progression, entries: seq<WorkoutEntry>)
    requires p.userXp + CrossTotal(entries) < NextLevelXp(c, p.userLevel)
    ensures AfterWorkoutXp(c, p, entries).userLevel == p.userLevel
    ensures AfterWorkoutXp(c, p, entries).userXp == p.userXp + CrossTotal(entries)
    decreases |entries|
  {
    if entries != [] {
      CrossTotalNonNegative(entries[1..]);
      WorkoutOverallWithoutLevelUp(c, ApplyEntry(c, p, entries[0]), entries[1..]);
    }
  }

  /** The overall level never drops and rises by at most one per applying entry. */
  lemma {:induction false} WorkoutLevelBounds(c: LevelConfig, p: Progression, entries: seq<WorkoutEntry>)
    ensures p.userLevel <= AfterWorkoutXp(c, p, entries).userLevel <= p.userLevel + AppliedCount(entries)
    decreases |entries|
  {
    if entries != [] {
      WorkoutLevelBounds(c, ApplyEntry(c, p, entries[0]), entries[1..]);
    }
  }

  /** `resetLevels()`: whatever the state, the result is the initial one. */
  function Reset(p: Progression): (r: Progression)
    ensures r.userLevel == 1 && r.userXp == 0 && r.muscleStats == InitialMuscleStats
  {
    InitialProgression
  }

  // ---------------------------------------------------------------------------
  // Exercise XP

  datatype ExerciseType = Strength | Hypertrophy | Endurance

  /** The base award of an exercise type; on non-negative inputs every rep is
      worth at least 2 and every set at least 5, whatever the type. */
  function BaseXp(t: ExerciseType, weight: real, reps: real, sets: real): (x: real)
    ensures weight >= 0.0 && reps >= 0.0 && sets >= 0.0 ==> x >= 2.0 * reps + 5.0 * sets
  {
    match t
    case Strength => weight * 0.1 + reps * 2.0 + sets * 5.0
    case Hypertrophy => weight * 0.05 + reps * 3.0 + sets * 8.0
    case Endurance => reps * 4.0 + sets * 10.0 + weight * 0.02
  }

  /** `1 + intensity * 0.1`: non-negative from intensity -10, at least 1 from 0. */
  function IntensityMultiplier(intensity: real): (k: real)
    ensures k >= 0.0 <==> intensity >= -10.0
    ensures k >= 1.0 <==> intensity >= 0.0
  {
    1.0 + intensity * 0.1
  }

  /** `calculateExerciseXp`: the base award of the exercise type scaled by the
      intensity, rounded down and capped at 200, with no lower bound. The muscle
      argument is ignored. */
  function ExerciseXp(muscle: Muscle, t: ExerciseType, intensity: real, weight: real, reps: real, sets: real): (r: int)
    ensures r <= 200
    ensures r < 200 ==> r == (BaseXp(t, weight, reps, sets) * IntensityMultiplier(intensity)).Floor
    ensures (BaseXp(t, weight, reps, sets) * IntensityMultiplier(intensity)).Floor >= 200 ==> r == 200
  {
    var finalXp := (BaseXp(t, weight, reps, sets) * IntensityMultiplier(intensity)).Floor;
    if finalXp <= 200 then finalXp else 200
  }

  /** Non-negative weight, reps and sets at an intensity of at least -10 never
      give a negative award. */
  lemma ExerciseXpNonNegative(muscle: Muscle, t: ExerciseType, intensity: real, weight: real, reps: real, sets: real)
    requires weight >= 0.0 && reps >= 0.0 && sets >= 0.0 && intensity >= -10.0
    ensures 0 <= ExerciseXp(muscle, t, intensity, weight, reps, sets) <= 200
  {
    ScaleNonNegative(BaseXp(t, weight, reps, sets), IntensityMultiplier(intensity));
  }

  /** There is no lower clamp: a negative weight can make the award negative. */
  lemma ExerciseXpCanBeNegative()
    ensures ExerciseXp(Chest, Strength, 0.0, -1000.0, 0.0, 0.0) == -100
  {
  }

  /** The worked example: strength, intensity 8, 80 kg, 10 reps, 3 sets. The base
      is 8 + 20 + 15 = 43 and 43 * 1.8 = 77.4. */
  lemma ExerciseXpExample()
    ensures ExerciseXp(Chest, Strength, 8.0, 80.0, 10.0, 3.0) == 77
  {
  }

  // ---------------------------------------------------------------------------
  // Derived views

  datatype LevelProgress = LevelProgress(
    currentLevel: int,
    currentXp: int,
    nextLevelXp: int,
    xpToNextLevel: int,
    progressPercentage: Number)

  function Clamp(v: real, lo: real, hi: real): real {
    if v < lo then lo else if v > hi then hi else v
  }

  /** `userLevelProgress`: XP gained above the current level's threshold as a
      percentage of the width of the level, clamped to [0, 100]. With a
      zero-width level the division yields an infinity (clamped to 0 or 100) or,
      when the XP sits exactly on the threshold, NaN, which the clamp lets through. */
  function LevelProgressOf(c: LevelConfig, level: int, xp: int): (r: LevelProgress)
    ensures r.currentLevel == level && r.currentXp == xp
    ensures r.nextLevelXp == NextLevelXp(c, level)
    ensures r.xpToNextLevel == r.nextLevelXp - xp
    ensures r.progressPercentage.NaN? <==>
      NextLevelXp(c, level) == XpForLevel(c, level) && xp == XpForLevel(c, level)
    ensures !r.progressPercentage.NaN? ==>
      r.progressPercentage.Finite? && 0.0 <= r.progressPercentage.value <= 100.0
    ensures NextLevelXp(c, level) != XpForLevel(c, level) ==>
      r.progressPercentage == Finite(Clamp(
        (xp - XpForLevel(c, level)) as real / (NextLevelXp(c, level) - XpForLevel(c, level)) as real * 100.0,
        0.0, 100.0))
    ensures NextLevelXp(c, level) == XpForLevel(c, level) && xp > XpForLevel(c, level) ==>
      r.progressPercentage == Finite(100.0)
    ensures NextLevelXp(c, level) == XpForLevel(c, level) && xp < XpForLevel(c, level) ==>
      r.progressPercentage == Finite(0.0)
  {
    var currentLevelXp := XpForLevel(c, level);
    var nextLevelXp := NextLevelXp(c, level);
    var xpInCurrentLevel := xp - currentLevelXp;
    var xpToNextLevel := nextLevelXp - xp;
    var progressPercentage :=
      Scale(Divide(xpInCurrentLevel as real, (nextLevelXp - currentLevelXp) as real), 100.0);
    LevelProgress(level, xp, nextLevelXp, xpToNextLevel,
      MathMin(Finite(100.0), MathMax(Finite(0.0), progressPercentage)))
  }

  datatype MuscleProgressEntry = MuscleProgressEntry(
    muscle: Muscle,
    level: int,
    xp: int,
    nextLevelXp: int,
    xpToNextLevel: int,
    progressPercentage: Number)

  /** `muscleProgress`: one entry per muscle in key order, copying the record and
      adding `xp / nextLevelXp * 100`, with no clamp. */
  function MuscleProgressOf(ms: MuscleStats): (r: seq<MuscleProgressEntry>)
    ensures |r| == |AllMuscles|
    ensures forall i :: 0 <= i < |r| ==>
      var d := ms.Get(AllMuscles[i]);
      && r[i].muscle == AllMuscles[i]
      && r[i].level == d.level && r[i].xp == d.xp
      && r[i].nextLevelXp == d.nextLevelXp && r[i].xpToNextLevel == d.xpToNextLevel
      && r[i].progressPercentage == Scale(Divide(d.xp as real, d.nextLevelXp as real), 100.0)
  {
    seq(|AllMuscles|, i requires 0 <= i < |AllMuscles| =>
      var d := ms.Get(AllMuscles[i]);
      MuscleProgressEntry(AllMuscles[i], d.level, d.xp, d.nextLevelXp, d.xpToNextLevel,
        Scale(Divide(d.xp as real, d.nextLevelXp as real), 100.0)))
  }

  /** The seed's stored `nextLevelXp` of 500 is not the threshold the comparison
      uses: 500 XP on a fresh muscle does not level it up, because the real
      threshold from level 1 is 900. */
  lemma SeedThresholdIsNotCompared(c: LevelConfig, d: MuscleLevel)
    requires c == DefaultConfig && d == InitialMuscle
    ensures var r := MuscleAfterXp(c, d, 500);
      && r.xp == d.nextLevelXp && r.level == 1 && r == MuscleLevel(1, 500, 500, 400)
  {
    DefaultFirstThreshold();
  }

  /** What each `muscleProgress` entry shows, for every muscle record: within
      [0, 100] while the XP lies within the stored threshold, above 100 once it
      passes it, and NaN for a zero threshold exactly when the XP is 0. */
  lemma MuscleProgressOfBounds(ms: MuscleStats, i: nat)
    requires i < |AllMuscles|
    ensures var e := MuscleProgressOf(ms)[i];
      && (e.nextLevelXp != 0 && 0 <= e.xp <= e.nextLevelXp ==>
            e.progressPercentage.Finite? && 0.0 <= e.progressPercentage.value <= 100.0)
      && (e.nextLevelXp > 0 && e.xp > e.nextLevelXp ==>
            e.progressPercentage.Finite? && e.progressPercentage.value > 100.0)
      && (e.nextLevelXp == 0 ==> (e.progressPercentage.NaN? <==> e.xp == 0))
  {
    var d := ms.Get(AllMuscles[i]);
    RatioBounds(d.xp as real, d.nextLevelXp as real);
  }

  /** `muscleProgress` is not clamped: 800 XP on a fresh chest shows 160%. */
  lemma MuscleProgressCanExceedHundred(c: LevelConfig, p: Progression)
    requires c == DefaultConfig && p == InitialProgression
    ensures var ms := AfterMuscleXp(c, p, Chest, 800).muscleStats;
      && ms.Get(Chest) == MuscleLevel(1, 800, 500, 100)
      && MuscleProgressOf(ms)[0].progressPercentage == Finite(160.0)
  {
    DefaultFirstThreshold();
    assert InitialMuscleStats.Get(Chest) == InitialMuscle;
    var ms := AfterMuscleXp(c, p, Chest, 800).muscleStats;
    assert ms.Get(AllMuscles[0]) == MuscleLevel(1, 800, 500, 100);
    assert Divide(800.0, 500.0) == Finite(1.6);
    assert MuscleProgressOf(ms)[0].progressPercentage == Scale(Finite(1.6), 100.0);
  }

  // ---------------------------------------------------------------------------
  // The hook object

  class LevelSystemHook {
    const config: LevelConfig
    var userLevel: int
    var userXp: int
    var muscleStats: MuscleStats

    function State(): Progression
      reads this
    {
      Progression(userLevel, userXp, muscleStats)
    }

    ghost predicate Valid()
      reads this
    {
      Consistent(config, State())
    }

    /** `useLevelSystem(initialConfig)` */
    constructor (initialConfig: ConfigOverride)
      ensures config == MergeConfig(initialConfig)
      ensures State() == InitialProgression
      ensures Valid()
    {
      config := MergeConfig(initialConfig);
      userLevel := 1;
      userXp := 0;
      muscleStats := InitialMuscleStats;
      InitialConsistent(MergeConfig(initialConfig));
    }

    method AddUserXp(amount: int)
      requires Valid()
      modifies this
      ensures Valid()
      ensures State() == AfterUserXp(config, old(State()), amount)
    {
      var newXp := userXp + amount;
      var nextLevelXp := NextLevelXp(config, userLevel);
      if newXp >= nextLevelXp && userLevel < MaxLevel(config) {
        var newLevel := userLevel + 1;
        userLevel := newLevel;
        var xpAfterLevelUp := newXp - XpForLevel(config, newLevel);
        userXp := Max(0, xpAfterLevelUp);
      } else {
        userXp := newXp;
      }
      ConsistentAfterUserXp(config, old(State()), amount);
    }

    method AddMuscleXp(m: Muscle, amount: int)
      requires Valid()
      modifies this
      ensures Valid()
      ensures State() == AfterMuscleXp(config, old(State()), m, amount)
    {
      var muscleData := muscleStats.Get(m);
      var newXp := muscleData.xp + amount;
      var nextLevelXp := NextLevelXp(config, muscleData.level);
      if newXp >= nextLevelXp {
        var newLevel := muscleData.level + 1;
        var newNextLevelXp := NextLevelXp(config, newLevel);
        muscleStats := muscleStats.With(m, MuscleLevel(newLevel, newXp, newNextLevelXp, newNextLevelXp - newXp));
      } else {
        muscleStats := muscleStats.With(m, muscleData.(xp := newXp, xpToNextLevel := nextLevelXp - newXp));
      }
      ConsistentAfterMuscle(config, old(State()), m, amount);
      AddUserXp(CrossContribution(amount));
    }

    method AddWorkoutXp(entries: seq<WorkoutEntry>)
      requires Valid()
      modifies this
      ensures Valid()
      ensures State() == AfterWorkoutXp(config, old(State()), entries)
    {
      var i := 0;
      while i < |entries|
        invariant 0 <= i <= |entries|
        invariant Valid()
        invariant AfterWorkoutXp(config, State(), entries[i..]) == AfterWorkoutXp(config, old(State()), entries)
      {
        var e := entries[i];
        assert entries[i..][1..] == entries[i + 1..];
        if e.amount.Some? && e.amount.value > 0 {
          AddMuscleXp(e.muscle, e.amount.value);
        }
        i := i + 1;
      }
    }

    method ResetLevels()
      modifies this
      ensures Valid()
      ensures State() == Reset(old(State()))
    {
      userLevel := 1;
      userXp := 0;
      muscleStats := InitialMuscleStats;
      InitialConsistent(config);
    }

    /** The hook's `levelProgress`, computed from the current overall track. */
    function UserLevelProgress(): (r: LevelProgress)
      reads this
      ensures r.currentLevel == userLevel && r.currentXp == userXp
      ensures r.nextLevelXp == NextLevelXp(config, userLevel) && r.xpToNextLevel == r.nextLevelXp - userXp
      ensures !r.progressPercentage.NaN? ==> r.progressPercentage.Finite? && 0.0 <= r.progressPercentage.value <= 100.0
      ensures r == LevelProgressOf(config, userLevel, userXp)
    {
      LevelProgressOf(config, userLevel, userXp)
    }

    /** The hook's `muscleProgress`, one entry per muscle of the current state. */
    function MuscleProgress(): (r: seq<MuscleProgressEntry>)
      reads this
      ensures |r| == |AllMuscles|
      ensures forall i :: 0 <= i < |r| ==>
        r[i].muscle == AllMuscles[i] && r[i].level == muscleStats.Get(AllMuscles[i]).level
        && r[i].xp == muscleStats.Get(AllMuscles[i]).xp
      ensures r == MuscleProgressOf(muscleStats)
    {
      MuscleProgressOf(muscleStats)
    }
  }

  // ---------------------------------------------------------------------------
  // Invariant of every reachable state

  /** A muscle record is either the untouched seed or one written by
      `addMuscleXp`, whose `xpToNextLevel` measures the distance to the engine's
      threshold; its level is at least 1. */
  ghost predicate MuscleCoherent(c: LevelConfig, d: MuscleLevel) {
    d.level >= 1 && (d == InitialMuscle || d.xpToNextLevel == NextLevelXp(c, d.level) - d.xp)
  }

  /** The overall level lies in [1, max(1, cap)] and every muscle record is coherent. */
  ghost predicate Consistent(c: LevelConfig, p: Progression) {
    && 1 <= p.userLevel
    && (p.userLevel <= MaxLevel(c) || p.userLevel == 1)
    && forall m :: MuscleCoherent(c, p.muscleStats.Get(m))
  }

  lemma InitialConsistent(c: LevelConfig)
    ensures Consistent(c, InitialProgression)
  {
    forall m ensures MuscleCoherent(c, InitialMuscleStats.Get(m)) {
      assert InitialMuscleStats.Get(m) == InitialMuscle;
    }
  }

  lemma ConsistentAfterUserXp(c: LevelConfig, p: Progression, amount: int)
    requires Consistent(c, p)
    ensures Consistent(c, AfterUserXp(c, p, amount))
  {
  }

  lemma ConsistentAfterMuscle(c: LevelConfig, p: Progression, m: Muscle, amount: int)
    requires Consistent(c, p)
    ensures Consistent(c, p.(muscleStats := p.muscleStats.With(m, MuscleAfterXp(c, p.muscleStats.Get(m), amount))))
    ensures Consistent(c, AfterMuscleXp(c, p, m, amount))
  {
    var q := p.(muscleStats := p.muscleStats.With(m, MuscleAfterXp(c, p.muscleStats.Get(m), amount)));
    forall n ensures MuscleCoherent(c, q.muscleStats.Get(n)) {
      if n != m {
        assert q.muscleStats.Get(n) == p.muscleStats.Get(n);
      }
    }
  }

  /** Every workout keeps the state consistent. */
  lemma {:induction false} ConsistentAfterWorkout(c: LevelConfig, p: Progression, entries: seq<WorkoutEntry>)
    requires Consistent(c, p)
    ensures Consistent(c, AfterWorkoutXp(c, p, entries))
    decreases |entries|
  {
    if entries != [] {
      var e := entries[0];
      if Applies(e) {
        ConsistentAfterMuscle(c, p, e.muscle, e.amount.value);
      }
      ConsistentAfterWorkout(c, ApplyEntry(c, p, e), entries[1..]);
    }
  }
}
