/** The profile's muscle panel: one card per muscle, each showing a rank title
    derived from the level and an unclamped percentage towards the stored
    `nextLevelXp`. */
module MuscleStatsPanel {
  import opened JsNumber
  import opened LevelSystem
  import opened UserDocument

  /** A card's key and display name; icons and colours are presentation only. */
  datatype MuscleCard = MuscleCard(key: Muscle, name: string)

  /** The `muscles` list, in display order. */
  function Cards(): (r: seq<MuscleCard>)
    ensures |r| == 7
    ensures forall i, j :: 0 <= i < j < |r| ==> r[i].key != r[j].key
    ensures forall m: Muscle :: r[CardIndex(m)].key == m
  {
    var r := [
      MuscleCard(Chest, "Peitoral"),
      MuscleCard(Back, "Costas"),
      MuscleCard(Shoulders, "Ombros"),
      MuscleCard(Biceps, "Bíceps"),
      MuscleCard(Triceps, "Tríceps"),
      MuscleCard(Legs, "Pernas"),
      MuscleCard(Core, "Core")
    ];
    r
  }

  /** Where muscle `m` sits in the card list. */
  function CardIndex(m: Muscle): (i: nat)
    ensures i < 7
  {
    match m
    case Chest => 0
    case Back => 1
    case Shoulders => 2
    case Biceps => 3
    case Triceps => 4
    case Legs => 5
    case Core => 6
  }

  /** `getMuscleProgress`: `xp / nextLevelXp * 100`, with no clamp; a zero
      `nextLevelXp` gives `NaN` or an infinity as in JavaScript. */
  function MuscleProgress(d: MuscleData): (r: Number)
    ensures d.nextLevelXp != 0 ==> r == Finite(d.xp as real / d.nextLevelXp as real * 100.0)
    ensures d.nextLevelXp != 0 && 0 <= d.xp <= d.nextLevelXp ==> r.Finite? && 0.0 <= r.value <= 100.0
    ensures d.nextLevelXp > 0 && d.xp > d.nextLevelXp ==> r.Finite? && r.value > 100.0
    ensures d.nextLevelXp == 0 ==> (r.NaN? <==> d.xp == 0)
  {
    RatioBounds(d.xp as real, d.nextLevelXp as real);
    Scale(Divide(d.xp as real, d.nextLevelXp as real), 100.0)
  }

  const Legendary: string := "LENDÁRIO"
  const Epic: string := "ÉPICO"
  const Rare: string := "RARO"
  const Advanced: string := "AVANÇADO"
  const Beginner: string := "INICIANTE"

  /** The five titles from lowest to highest. */
  const Ranks: seq<string> := [Beginner, Advanced, Rare, Epic, Legendary]

  /** `getRankTitle`: thresholds 20, 15, 10 and 5, checked from the top. */
  function RankTitle(level: int): (r: string)
    ensures level >= 20 ==> r == Legendary
    ensures 15 <= level < 20 ==> r == Epic
    ensures 10 <= level < 15 ==> r == Rare
    ensures 5 <= level < 10 ==> r == Advanced
    ensures level < 5 ==> r == Beginner
  {
    if level >= 20 then Legendary
    else if level >= 15 then Epic
    else if level >= 10 then Rare
    else if level >= 5 then Advanced
    else Beginner
  }

  /** The position of a level's title in `Ranks`. */
  function RankIndex(level: int): (i: nat)
    ensures i < |Ranks| && Ranks[i] == RankTitle(level)
  {
    if level >= 20 then 4
    else if level >= 15 then 3
    else if level >= 10 then 2
    else if level >= 5 then 1
    else 0
  }

  /** The titles are pairwise different, so a title determines its place. */
  lemma RanksDistinct()
    ensures forall i, j :: 0 <= i < j < |Ranks| ==> Ranks[i] != Ranks[j]
  {
  }

  /** A higher level never shows a lower title. */
  lemma RankMonotone(a: int, b: int)
    requires a <= b
    ensures RankIndex(a) <= RankIndex(b)
  {
  }

  /** What one card shows. */
  datatype CardView = CardView(key: Muscle, name: string, level: int, xp: int, nextLevelXp: int,
    progress: Number, rank: string)

  /** The rendered grid: one view per card, in card order, reading the card's
      muscle from the stored record. */
  function CardViews(stats: StoredMuscles): (r: seq<CardView>)
    ensures |r| == |Cards()|
    ensures forall i :: 0 <= i < |r| ==>
      var card := Cards()[i];
      var d := stats.Get(card.key);
      && r[i].key == card.key && r[i].name == card.name
      && r[i].level == d.level && r[i].xp == d.xp && r[i].nextLevelXp == d.nextLevelXp
      && r[i].progress == MuscleProgress(d) && r[i].rank == RankTitle(d.level)
  {
    var cards := Cards();
    seq(|cards|, i requires 0 <= i < |cards| =>
      var d := stats.Get(cards[i].key);
      CardView(cards[i].key, cards[i].name, d.level, d.xp, d.nextLevelXp, MuscleProgress(d), RankTitle(d.level)))
  }

  /** Every muscle's card shows that muscle's stored data. */
  lemma CardViewsCoverEveryMuscle(stats: StoredMuscles, m: Muscle)
    ensures var v := CardViews(stats)[CardIndex(m)];
      && v.key == m && v.level == stats.Get(m).level && v.xp == stats.Get(m).xp
      && v.nextLevelXp == stats.Get(m).nextLevelXp && v.rank == RankTitle(stats.Get(m).level)
  {
  }

  /** A bar past full: 800 of a stored 500 shows 160%. */
  lemma ProgressCanExceedHundred()
    ensures MuscleProgress(MuscleData(1, 800, 500)) == Finite(160.0)
  {
  }
}
