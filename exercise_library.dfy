/**
 * The exercise library (`lib/exercises.ts`): a constant list of home
 * exercises and three queries over it, by category, by intensity and by id.
 * Each entry keeps the fields the queries and the session pages use; the
 * descriptive text lists (equipment, instructions, modifications,
 * considerations, contraindications) and the video links are not modelled.
 */
module ExerciseLibrary {
  import opened Wrappers

  datatype Category = Cardio | Strength | Flexibility
  datatype Intensity = Light | Moderate | Vigorous

  datatype ExerciseType = ExerciseType(
    id: string,
    name: string,
    category: Category,
    intensity: Intensity,
    duration: string,
    targetRPE: seq<int>)

  /** The string each category is written as, which the queries compare against. */
  function CategoryName(c: Category): string {
    match c
    case Cardio => "cardio"
    case Strength => "strength"
    case Flexibility => "flexibility"
  }

  function IntensityName(i: Intensity): string {
    match i
    case Light => "light"
    case Moderate => "moderate"
    case Vigorous => "vigorous"
  }

  // The library's entries.
  const WalkingInPlace: ExerciseType := ExerciseType("walking-in-place", "Walking in Place", Cardio, Light, "8-20 minutes", [2, 3, 4])
  const StepTouches: ExerciseType := ExerciseType("step-touches", "Step-Touches with Arms", Cardio, Light, "6-15 minutes", [2, 3, 4])
  const ModifiedJumpingJacks: ExerciseType := ExerciseType("modified-jumping-jacks", "Modified Jumping Jacks (Step-Out)", Cardio, Light, "5-12 minutes", [3, 4, 5])
  const WallPushups: ExerciseType := ExerciseType("wall-pushups", "Wall Push-Ups", Strength, Light, "8-15 minutes", [3, 4, 5])
  const ChairSquats: ExerciseType := ExerciseType("chair-squats", "Chair-Assisted Squats", Strength, Light, "8-15 minutes", [3, 4, 5])
  const StandingKneeLifts: ExerciseType := ExerciseType("standing-knee-lifts", "Standing Knee Lifts", Strength, Light, "6-12 minutes", [2, 3, 4])
  const GentleStretching: ExerciseType := ExerciseType("gentle-stretching", "Gentle Full-Body Stretching", Flexibility, Light, "12-25 minutes", [1, 2, 3])
  const SeatedExercises: ExerciseType := ExerciseType("seated-exercises", "Seated Exercise Routine", Flexibility, Light, "15-30 minutes", [1, 2, 3])
  const BreathingMeditation: ExerciseType := ExerciseType("breathing-meditation", "Breathing & Gentle Movement", Flexibility, Light, "8-20 minutes", [1, 2])
  const DanceMovement: ExerciseType := ExerciseType("dance-movement", "Gentle Dance Movement", Cardio, Light, "8-25 minutes", [2, 3, 4])
  const IntervalWalking: ExerciseType := ExerciseType("interval-walking", "Interval Walking in Place", Cardio, Light, "12-25 minutes", [2, 3, 4, 5])

  /** `exerciseLibrary`, in order. */
  const Library: seq<ExerciseType> := [
    WalkingInPlace, StepTouches, ModifiedJumpingJacks,
    WallPushups, ChairSquats, StandingKneeLifts,
    GentleStretching, SeatedExercises, BreathingMeditation,
    DanceMovement, IntervalWalking
  ]

  /** `filter(exercise => exercise.category === category)` over any list. */
  function WithCategory(s: seq<ExerciseType>, category: string): (r: seq<ExerciseType>)
    ensures |r| <= |s|
    ensures forall e :: e in r <==> e in s && CategoryName(e.category) == category
  {
    if s == [] then []
    else
      assert s == [s[0]] + s[1..];
      (if CategoryName(s[0].category) == category then [s[0]] else []) + WithCategory(s[1..], category)
  }

  /** `filter(exercise => exercise.intensity === intensity)` over any list. */
  function WithIntensity(s: seq<ExerciseType>, intensity: string): (r: seq<ExerciseType>)
    ensures |r| <= |s|
    ensures forall e :: e in r <==> e in s && IntensityName(e.intensity) == intensity
  {
    if s == [] then []
    else
      assert s == [s[0]] + s[1..];
      (if IntensityName(s[0].intensity) == intensity then [s[0]] else []) + WithIntensity(s[1..], intensity)
  }

  /** The index of the first entry with that id, or `|s|` (`find`). */
  function IdIndex(s: seq<ExerciseType>, id: string): (k: nat)
    ensures k <= |s|
    ensures k < |s| ==> s[k].id == id
    ensures forall i :: 0 <= i < k ==> s[i].id != id
  {
    if s == [] then 0
    else if s[0].id == id then 0
    else 1 + IdIndex(s[1..], id)
  }

  /** `getExercisesByCategory`: the library's exercises of that category, in library order. */
  function GetExercisesByCategory(category: string): (r: seq<ExerciseType>)
    ensures |r| <= |Library|
    ensures forall e :: e in r <==> e in Library && CategoryName(e.category) == category
  {
    WithCategory(Library, category)
  }

  /** `getExercisesByIntensity`: the library's exercises of that intensity, in library order. */
  function GetExercisesByIntensity(intensity: string): (r: seq<ExerciseType>)
    ensures |r| <= |Library|
    ensures forall e :: e in r <==> e in Library && IntensityName(e.intensity) == intensity
  {
    WithIntensity(Library, intensity)
  }

  /** `find(exercise => exercise.id === id)`, `None` for `undefined`. */
  function GetExerciseById(id: string): (r: Option<ExerciseType>)
    ensures r.Some? ==> r.value in Library && r.value.id == id
    ensures r.None? <==> forall i :: 0 <= i < |Library| ==> Library[i].id != id
  {
    var k := IdIndex(Library, id);
    if k < |Library| then Some(Library[k]) else None
  }

  // ---------------------------------------------------------------------------
  // Properties

  /** Filtering splits over concatenation, so it keeps the list's order. */
  lemma {:induction false} WithCategoryAppend(s: seq<ExerciseType>, t: seq<ExerciseType>, category: string)
    ensures WithCategory(s + t, category) == WithCategory(s, category) + WithCategory(t, category)
  {
    if s != [] {
      assert (s + t)[1..] == s[1..] + t;
      WithCategoryAppend(s[1..], t, category);
    } else {
      assert s + t == t;
    }
  }

  /** The three categories split any list: their filters' lengths add up to its length. */
  lemma {:induction false} CategoriesPartition(s: seq<ExerciseType>)
    ensures |WithCategory(s, "cardio")| + |WithCategory(s, "strength")| + |WithCategory(s, "flexibility")| == |s|
  {
    if s != [] {
      CategoriesPartition(s[1..]);
    }
  }

  /** The three category queries together return the whole library: every entry once. */
  lemma CategoriesCoverLibrary()
    ensures |GetExercisesByCategory("cardio")| + |GetExercisesByCategory("strength")| + |GetExercisesByCategory("flexibility")| == |Library|
    ensures forall e :: e in Library ==> e in GetExercisesByCategory(CategoryName(e.category))
  {
    CategoriesPartition(Library);
  }

  /** No entry answers two category queries, and any other string answers none. */
  lemma CategoryQueriesDisjoint(e: ExerciseType, c1: string, c2: string)
    requires e in GetExercisesByCategory(c1) && e in GetExercisesByCategory(c2)
    ensures c1 == c2
    ensures c1 in {"cardio", "strength", "flexibility"}
  {
  }

  /** The library's ids are pairwise distinct. */
  lemma LibraryIdsDistinct()
    ensures forall i, j :: 0 <= i < j < |Library| ==> Library[i].id != Library[j].id
  {
  }

  /** With distinct ids, the entry found by id is the only one with that id. */
  lemma ByIdIsUnique(id: string)
    ensures GetExerciseById(id).Some? ==>
              forall i :: 0 <= i < |Library| && Library[i].id == id ==> Library[i] == GetExerciseById(id).value
  {
    LibraryIdsDistinct();
    var k := IdIndex(Library, id);
    if k < |Library| {
      forall i | 0 <= i < |Library| && Library[i].id == id
        ensures Library[i] == Library[k]
      {
        assert !(i < k) && !(k < i);
      }
    }
  }

  /** Every entry is light: `light` yields the whole library, in order, and the other intensities nothing. */
  lemma AllLight()
    ensures GetExercisesByIntensity("light") == Library
    ensures GetExercisesByIntensity("moderate") == [] && GetExercisesByIntensity("vigorous") == []
  {
    assert forall i :: 0 <= i < |Library| ==> Library[i].intensity == Light;
    AllLightFrom(Library);
  }

  lemma {:induction false} AllLightFrom(s: seq<ExerciseType>)
    requires forall i :: 0 <= i < |s| ==> s[i].intensity == Light
    ensures WithIntensity(s, "light") == s
    ensures WithIntensity(s, "moderate") == [] && WithIntensity(s, "vigorous") == []
  {
    if s != [] {
      AllLightFrom(s[1..]);
      assert s == [s[0]] + s[1..];
    }
  }

  /** Every target RPE list is non-empty, strictly increasing and on the 0..10 scale. */
  lemma TargetRpeWellFormed()
    ensures forall i :: 0 <= i < |Library| ==>
              var t := Library[i].targetRPE;
              |t| > 0
              && (forall j, k :: 0 <= j < k < |t| ==> t[j] < t[k])
              && (forall j :: 0 <= j < |t| ==> 0 <= t[j] <= 10)
  {
  }
}
