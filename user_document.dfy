/** The per-muscle part of a user's stored document, as the onboarding screen
    writes it and the profile's muscle panel reads it. */
module UserDocument {
  import opened LevelSystem

  /** `{ level, xp, nextLevelXp }`: a muscle as stored, without `xpToNextLevel`. */
  datatype MuscleData = MuscleData(level: int, xp: int, nextLevelXp: int)

  datatype StoredMuscles = StoredMuscles(
    chest: MuscleData, back: MuscleData, shoulders: MuscleData, biceps: MuscleData,
    triceps: MuscleData, legs: MuscleData, core: MuscleData)
  {
    /** `muscleStats[m]` */
    function Get(m: Muscle): MuscleData {
      match m
      case Chest => chest
      case Back => back
      case Shoulders => shoulders
      case Biceps => biceps
      case Triceps => triceps
      case Legs => legs
      case Core => core
    }
  }

  /** A record holding the same data for all seven muscles. */
  function Uniform(d: MuscleData): (r: StoredMuscles)
    ensures forall m :: r.Get(m) == d
  {
    StoredMuscles(d, d, d, d, d, d, d)
  }
}
