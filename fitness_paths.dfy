/** The table of training focuses shared by the onboarding and profile screens:
    an identifier stored in the user's document and the name shown for it. */
module FitnessPaths {
  import opened Wrappers

  datatype FitnessPath = FitnessPath(id: string, name: string)

  const Paths: seq<FitnessPath> := [
    FitnessPath("bodybuilding", "Bodybuilding"),
    FitnessPath("powerlifting", "Powerlifting"),
    FitnessPath("crossfit", "CrossFit"),
    FitnessPath("calisthenics", "Calistenia"),
    FitnessPath("strongman", "Strongman"),
    FitnessPath("powerbuilding", "Powerbuilding"),
    FitnessPath("endurance", "Endurance")
  ]

  /** Entry `i` is the first whose identifier is `id`. */
  ghost predicate FirstMatch(paths: seq<FitnessPath>, id: string, i: int) {
    0 <= i < |paths| && paths[i].id == id && forall j :: 0 <= j < i ==> paths[j].id != id
  }

  /** `paths.find(p => p.id === id)?.name`: the name of the first entry whose
      identifier is `id`, or `None` (JavaScript's `undefined`) when none is. */
  function FindIn(paths: seq<FitnessPath>, id: string): (r: Option<string>)
    ensures r.None? <==> forall i :: 0 <= i < |paths| ==> paths[i].id != id
    ensures r.Some? ==> exists i :: FirstMatch(paths, id, i) && paths[i].name == r.value
    decreases |paths|
  {
    if paths == [] then None
    else if paths[0].id == id then Some(paths[0].name)
    else
      var r := FindIn(paths[1..], id);
      assert forall i :: 1 <= i < |paths| ==> paths[i] == paths[1..][i - 1];
      if r.Some? then
        ghost var k :| FirstMatch(paths[1..], id, k) && paths[1..][k].name == r.value;
        assert FirstMatch(paths, id, k + 1);
        r
      else r
  }

  function Find(id: string): (r: Option<string>)
    ensures r.None? <==> forall i :: 0 <= i < |Paths| ==> Paths[i].id != id
    ensures forall i :: 0 <= i < |Paths| && Paths[i].id == id ==> r == Some(Paths[i].name)
  {
    IdsDistinct();
    FindIn(Paths, id)
  }

  /** The seven identifiers are pairwise different, and so are the names. */
  lemma IdsDistinct()
    ensures forall i, j :: 0 <= i < j < |Paths| ==> Paths[i].id != Paths[j].id
    ensures forall i, j :: 0 <= i < j < |Paths| ==> Paths[i].name != Paths[j].name
  {
  }

  /** No entry has an empty name, so `find(...)?.name || fallback` falls back
      exactly when the identifier is unknown. */
  lemma NamesNonEmpty()
    ensures forall i :: 0 <= i < |Paths| ==> Paths[i].name != ""
  {
  }
}
