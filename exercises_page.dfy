/** The exercises page: the exercise list and its summary totals, deletion,
    the add/edit form with its calories-per-minute recomputation, the
    suggestion lists and the keyword classifier for custom exercises. Server
    calls are left out; each callback is a method that receives the
    server's answer. The current time is a parameter `now`. */
module Exercises {
  import opened Optional
  import opened JsRuntime

  /** An exercise of the list (the `Exercise` model). */
  datatype Exercise = Exercise(
    id: int,
    name: string,
    category: string,
    duration: real,
    caloriesBurned: real,
    date: string,
    userId: Option<int>)

  /** The form's `newExercise`: an exercise without its id. */
  datatype ExerciseDraft = ExerciseDraft(name: string, category: string, duration: real, caloriesBurned: real, date: string)

  function EmptyDraft(now: string): ExerciseDraft {
    ExerciseDraft("", "", 0.0, 0.0, now)
  }

  /** An exercise as the server lists it; None stands for a missing or null field. */
  datatype RawExercise = RawExercise(
    id: int,
    userId: Option<int>,
    name: string,
    category: Option<string>,
    duration: Option<real>,
    caloriesBurned: Option<real>,
    date: Option<string>)

  /** The mapping loadExercises applies to each listed row: falsy category,
      duration, calories and date get '', 0, 0 and the current time. */
  function FromRaw(raw: RawExercise, now: string): (e: Exercise)
    ensures e.id == raw.id && e.userId == raw.userId && e.name == raw.name
    ensures raw.caloriesBurned.None? ==> e.caloriesBurned == 0.0
    ensures raw.duration.None? ==> e.duration == 0.0
    ensures raw.caloriesBurned.Some? ==> e.caloriesBurned == raw.caloriesBurned.value
    ensures raw.duration.Some? ==> e.duration == raw.duration.value
    ensures raw.category.Some? ==> e.category == raw.category.value
    ensures raw.category.None? ==> e.category == ""
    ensures e.date == StringOr(raw.date, now)
  {
    Exercise(raw.id, raw.name, StringOr(raw.category, ""), NumberOr(raw.duration, 0.0),
             NumberOr(raw.caloriesBurned, 0.0), StringOr(raw.date, now), raw.userId)
  }

  /** The first Nutritionix match, as the form keeps it. */
  datatype SearchResult = SearchResult(name: string, duration: real, calories: int)

  /** An exercise as Nutritionix describes it. */
  datatype NutritionixExercise = NutritionixExercise(name: string, durationMin: real, nfCalories: real)

  /** The request addOrUpdateExercise sends. */
  datatype SaveRequest =
    | AddExercise(draft: ExerciseDraft, userId: Option<int>)
    | UpdateExercise(draft: ExerciseDraft, userId: Option<int>, id: int)

  // ---------------------------------------------------------------------
  // The keyword classifier

  const Categories: set<string> := {"cardio", "strength", "flexibility", "balance", "other"}
  const CardioKeywords: seq<string> := ["run", "jog", "walk", "swim", "cycle", "bike", "cardio"]
  const StrengthKeywords: seq<string> := ["lift", "push", "pull", "weight", "strength"]
  const FlexibilityKeywords: seq<string> := ["stretch", "yoga", "flexibility"]
  const BalanceKeywords: seq<string> := ["balance", "pose", "pilates"]

  predicate IncludesAny(s: string, keywords: seq<string>) {
    exists k :: k in keywords && Includes(s, k)
  }

  /** inferCategory: the first keyword group, in the order cardio, strength,
      flexibility, balance, that has a keyword in the lower-cased name. */
  function InferCategory(exerciseName: string): (category: string)
    ensures category in Categories
    ensures category == "cardio" <==> IncludesAny(ToLower(exerciseName), CardioKeywords)
    ensures category == "strength" <==>
      !IncludesAny(ToLower(exerciseName), CardioKeywords) && IncludesAny(ToLower(exerciseName), StrengthKeywords)
    ensures category == "flexibility" <==>
      !IncludesAny(ToLower(exerciseName), CardioKeywords) && !IncludesAny(ToLower(exerciseName), StrengthKeywords)
      && IncludesAny(ToLower(exerciseName), FlexibilityKeywords)
    ensures category == "other" <==>
      !IncludesAny(ToLower(exerciseName), CardioKeywords + StrengthKeywords + FlexibilityKeywords + BalanceKeywords)
  {
    var name := ToLower(exerciseName);
    if IncludesAny(name, CardioKeywords) then "cardio"
    else if IncludesAny(name, StrengthKeywords) then "strength"
    else if IncludesAny(name, FlexibilityKeywords) then "flexibility"
    else if IncludesAny(name, BalanceKeywords) then "balance"
    else "other"
  }

  /** The classifier ignores letter case. */
  lemma InferCategoryIgnoresCase(a: string, b: string)
    requires ToLower(a) == ToLower(b)
    ensures InferCategory(a) == InferCategory(b)
  {
  }

  /** Classifying the lower-cased name gives the same category. */
  lemma InferCategoryOfLowerCase(name: string)
    ensures InferCategory(ToLower(name)) == InferCategory(name)
  {
    ToLowerIdempotent(name);
  }

  /** An occurrence of `k` at `i` puts each letter of `k` in place. */
  lemma OccurrenceLetters(s: string, k: string, i: int)
    ensures OccursAt(s, k, i) ==> forall j :: 0 <= j < |k| ==> s[i + j] == k[j]
  {
    if OccursAt(s, k, i) {
      forall j | 0 <= j < |k| ensures s[i + j] == k[j] {
        assert s[i..i + |k|][j] == s[i + j];
      }
    }
  }

  /** `k` does not occur when its letter at position j appears nowhere in
      `s` from position j on. */
  lemma NotIncludedWithout(s: string, k: string, j: int)
    requires 0 <= j < |k| && (j <= |s| ==> k[j] !in s[j..])
    ensures !Includes(s, k)
  {
    forall i ensures !OccursAt(s, k, i) {
      OccurrenceLetters(s, k, i);
      if 0 <= i && i + |k| <= |s| {
        assert s[i + j] == s[j..][i];
      }
    }
  }

  lemma LowerYogaBalancePoses()
    ensures ToLower("Yoga Balance Poses") == "yoga balance poses"
  {
    var r := ToLower("Yoga Balance Poses");
    forall i | 0 <= i < 18 ensures r[i] == "yoga balance poses"[i] {
    }
  }

  /** A name without the letters r, j, w, i and with no y after its first
      letter has no cardio keyword. */
  lemma NoCardioKeyword(s: string)
    requires 'r' !in s && 'j' !in s && 'w' !in s && 'i' !in s
    requires |s| >= 1 && 'y' !in s[1..]
    ensures !IncludesAny(s, CardioKeywords)
  {
    NotIncludedWithout(s, "run", 0);
    NotIncludedWithout(s, "jog", 0);
    NotIncludedWithout(s, "walk", 0);
    NotIncludedWithout(s, "swim", 1);
    NotIncludedWithout(s, "cycle", 1);
    NotIncludedWithout(s, "bike", 1);
    NotIncludedWithout(s, "cardio", 2);
  }

  /** A name without the letters i, u, w, t has no strength keyword. */
  lemma NoStrengthKeyword(s: string)
    requires 'i' !in s && 'u' !in s && 'w' !in s && 't' !in s
    ensures !IncludesAny(s, StrengthKeywords)
  {
    NotIncludedWithout(s, "lift", 1);
    NotIncludedWithout(s, "push", 1);
    NotIncludedWithout(s, "pull", 1);
    NotIncludedWithout(s, "weight", 0);
    NotIncludedWithout(s, "strength", 1);
  }

  /** The letters the keyword lemmas need about "yoga balance poses". */
  lemma YogaBalancePosesLetters(s: string)
    requires s == "yoga balance poses"
    ensures 'r' !in s && 'j' !in s && 'w' !in s && 'i' !in s && 'u' !in s && 't' !in s
    ensures |s| >= 1 && 'y' !in s[1..]
    ensures IncludesAny(s, FlexibilityKeywords)
  {
    assert OccursAt(s, "yoga", 0);
    assert "yoga" in FlexibilityKeywords;
  }

  /** "Yoga Balance Poses" is flexibility: yoga is tested before pose. */
  lemma YogaBalancePosesIsFlexibility()
    ensures InferCategory("Yoga Balance Poses") == "flexibility"
  {
    var s := ToLower("Yoga Balance Poses");
    LowerYogaBalancePoses();
    YogaBalancePosesLetters(s);
    NoCardioKeyword(s);
    NoStrengthKeyword(s);
  }

  // ---------------------------------------------------------------------
  // The summary and deletion

  function DurationOf(e: Exercise): real { e.duration }

  /** `ex.caloriesBurned || 0`: a number here, so 0 stays 0 and any other value is kept. */
  function CaloriesOf(e: Exercise): (calories: real)
    ensures calories == e.caloriesBurned
  {
    NumberOr(Some(e.caloriesBurned), 0.0)
  }

  /** `reduce((sum, ex) => sum + f(ex), 0)`. */
  function Total(xs: seq<Exercise>, f: Exercise -> real): (total: real)
    ensures xs == [] ==> total == 0.0
    ensures (forall e :: e in xs ==> f(e) >= 0.0) ==> total >= 0.0
    ensures (forall e :: e in xs ==> f(e) >= 0.0) ==> forall e :: e in xs ==> f(e) <= total
  {
    if xs == [] then 0.0 else f(xs[0]) + Total(xs[1..], f)
  }

  lemma {:induction false} TotalAppend(a: seq<Exercise>, b: seq<Exercise>, f: Exercise -> real)
    ensures Total(a + b, f) == Total(a, f) + Total(b, f)
    decreases |a|
  {
    if a == [] {
      assert a + b == b;
    } else {
      assert (a + b)[0] == a[0];
      assert (a + b)[1..] == a[1..] + b;
      TotalAppend(a[1..], b, f);
    }
  }

  /** `exercises.filter(exercise => exercise.id !== id)`. */
  function WithoutId(xs: seq<Exercise>, id: int): (r: seq<Exercise>)
    ensures |r| <= |xs|
    ensures forall e :: e in r <==> e in xs && e.id != id
  {
    if xs == [] then []
    else if xs[0].id != id then [xs[0]] + WithoutId(xs[1..], id)
    else WithoutId(xs[1..], id)
  }

  /** The entries a delete of `id` removes. */
  function WithId(xs: seq<Exercise>, id: int): seq<Exercise> {
    if xs == [] then []
    else if xs[0].id == id then [xs[0]] + WithId(xs[1..], id)
    else WithId(xs[1..], id)
  }

  /** The filter keeps the order: it distributes over concatenation. */
  lemma {:induction false} WithoutIdAppend(a: seq<Exercise>, b: seq<Exercise>, id: int)
    ensures WithoutId(a + b, id) == WithoutId(a, id) + WithoutId(b, id)
    decreases |a|
  {
    if a == [] {
      assert a + b == b;
    } else {
      assert (a + b)[0] == a[0];
      assert (a + b)[1..] == a[1..] + b;
      WithoutIdAppend(a[1..], b, id);
    }
  }

  /** Deleting an id the list does not hold changes nothing. */
  lemma {:induction false} WithoutAbsentId(xs: seq<Exercise>, id: int)
    requires forall e :: e in xs ==> e.id != id
    ensures WithoutId(xs, id) == xs
    decreases |xs|
  {
    if xs != [] {
      assert forall e :: e in xs[1..] ==> e in xs;
      WithoutAbsentId(xs[1..], id);
    }
  }

  /** Deleting twice is deleting once. */
  lemma WithoutIdIdempotent(xs: seq<Exercise>, id: int)
    ensures WithoutId(WithoutId(xs, id), id) == WithoutId(xs, id)
  {
    WithoutAbsentId(WithoutId(xs, id), id);
  }

  /** Each entry is either kept or removed: counts and totals split exactly. */
  lemma {:induction false} DeletePartition(xs: seq<Exercise>, id: int, f: Exercise -> real)
    ensures |WithoutId(xs, id)| + |WithId(xs, id)| == |xs|
    ensures Total(WithoutId(xs, id), f) + Total(WithId(xs, id), f) == Total(xs, f)
    decreases |xs|
  {
    if xs != [] {
      DeletePartition(xs[1..], id, f);
      if xs[0].id != id {
        assert ([xs[0]] + WithoutId(xs[1..], id))[1..] == WithoutId(xs[1..], id);
      } else {
        assert ([xs[0]] + WithId(xs[1..], id))[1..] == WithId(xs[1..], id);
      }
    }
  }

  // ---------------------------------------------------------------------
  // The page

  /** Every field of the page that the modelled methods read or write. */
  datatype PageState = PageState(
    exercises: seq<Exercise>,
    totalExercises: int,
    totalDuration: real,
    totalCalories: real,
    caloriesPerMinute: real,
    newExercise: ExerciseDraft,
    isEditing: bool,
    editingExerciseId: Option<int>,
    isOpenModal: bool,
    isCaloriesReadonly: bool,
    selectedExerciseType: string,
    selectedSuggestedExercise: string,
    customExerciseName: string,
    suggestedExercises: seq<string>,
    selectedExerciseResult: Option<SearchResult>)

  /** The totals describe the list. */
  predicate SummaryConsistent(s: PageState) {
    && s.totalExercises == |s.exercises|
    && s.totalDuration == Total(s.exercises, DurationOf)
    && s.totalCalories == Total(s.exercises, CaloriesOf)
  }

  /** calculateSummary. */
  function WithSummary(s: PageState): (t: PageState)
    ensures SummaryConsistent(t)
    ensures t.(totalExercises := s.totalExercises, totalDuration := s.totalDuration,
               totalCalories := s.totalCalories) == s
  {
    s.(totalExercises := |s.exercises|,
       totalDuration := Total(s.exercises, DurationOf),
       totalCalories := Total(s.exercises, CaloriesOf))
  }

  /** resetExerciseForm. */
  function AfterResetExerciseForm(s: PageState, now: string): (t: PageState)
    ensures t.newExercise == ExerciseDraft("", "", 0.0, 0.0, now)
    ensures t.caloriesPerMinute == 0.0 && !t.isCaloriesReadonly && t.selectedExerciseResult.None?
    ensures t.(newExercise := s.newExercise, caloriesPerMinute := s.caloriesPerMinute,
               isCaloriesReadonly := s.isCaloriesReadonly, selectedExerciseResult := s.selectedExerciseResult) == s
  {
    s.(newExercise := EmptyDraft(now), caloriesPerMinute := 0.0,
       isCaloriesReadonly := false, selectedExerciseResult := None)
  }

  /** resetForm. */
  function AfterResetForm(s: PageState, now: string): (t: PageState)
    ensures !t.isEditing && t.editingExerciseId.None? && t.newExercise == ExerciseDraft("", "", 0.0, 0.0, now)
    ensures t.(isEditing := s.isEditing, editingExerciseId := s.editingExerciseId, newExercise := s.newExercise) == s
  {
    s.(isEditing := false, editingExerciseId := None, newExercise := EmptyDraft(now))
  }

  /** `Math.round(duration * caloriesPerMinute)`. */
  function CaloriesFor(duration: real, rate: real): (calories: int)
    ensures calories as real - 1.0 / 2.0 <= duration * rate < calories as real + 1.0 / 2.0
  {
    Round(duration * rate)
  }

  /** updateCalories: only with a positive rate and a positive duration, and
      then only the draft's calories change. */
  function AfterUpdateCalories(s: PageState): (t: PageState)
    ensures t.newExercise.caloriesBurned != s.newExercise.caloriesBurned ==>
              s.caloriesPerMinute > 0.0 && s.newExercise.duration > 0.0
    ensures s.caloriesPerMinute > 0.0 && s.newExercise.duration > 0.0 ==>
              t.newExercise.caloriesBurned == Round(s.newExercise.duration * s.caloriesPerMinute) as real
    ensures t.newExercise.(caloriesBurned := s.newExercise.caloriesBurned) == s.newExercise
    ensures t.(newExercise := s.newExercise) == s
  {
    if s.caloriesPerMinute > 0.0 && s.newExercise.duration > 0.0 then
      var calories := CaloriesFor(s.newExercise.duration, s.caloriesPerMinute);
      assert calories == Round(s.newExercise.duration * s.caloriesPerMinute);
      s.(newExercise := s.newExercise.(caloriesBurned := calories as real))
    else s
  }

  /** The recomputed calories are the product of duration and rate, to
      within one half. */
  lemma UpdateCaloriesBound(s: PageState)
    requires s.caloriesPerMinute > 0.0 && s.newExercise.duration > 0.0
    ensures var c := AfterUpdateCalories(s).newExercise.caloriesBurned;
            c == c.Floor as real && -1.0 / 2.0 < c - s.newExercise.duration * s.caloriesPerMinute <= 1.0 / 2.0
  {
  }

  /** Recomputing twice is recomputing once. */
  lemma UpdateCaloriesIdempotent(s: PageState)
    ensures AfterUpdateCalories(AfterUpdateCalories(s)) == AfterUpdateCalories(s)
  {
    var t := AfterUpdateCalories(s);
    assert t.caloriesPerMinute == s.caloriesPerMinute && t.newExercise.duration == s.newExercise.duration;
  }

  /** Calories spread over a duration and multiplied back come to the
      rounded calories. */
  lemma RecomputedCalories(duration: real, calories: real)
    requires duration != 0.0
    ensures CaloriesFor(duration, calories / duration) == Round(calories)
  {
    assert duration * (calories / duration) == calories;
  }

  /** populateExerciseDetails and selectNutritionixExercise: the form takes
      the exercise's name and duration, its category (classified by name for
      a custom type), the rate calories / duration, and calories recomputed
      by updateCalories; the calories field becomes read-only. The
      recomputation happens exactly when duration and calories are both
      positive, and then gives the rounded calories back. */
  function AfterFillFromExercise(s: PageState, name: string, duration: real, calories: real): (t: PageState)
    requires duration != 0.0
    ensures t.newExercise.name == name && t.newExercise.duration == duration
    ensures t.newExercise.category ==
      if s.selectedExerciseType == "custom" then InferCategory(name) else s.selectedExerciseType
    ensures t.newExercise.date == s.newExercise.date
    ensures t.caloriesPerMinute == calories / duration && t.isCaloriesReadonly
    ensures duration > 0.0 && calories > 0.0 ==> t.newExercise.caloriesBurned == Round(calories) as real
    ensures !(duration > 0.0 && calories > 0.0) ==> t.newExercise.caloriesBurned == s.newExercise.caloriesBurned
    ensures t.(newExercise := s.newExercise, caloriesPerMinute := s.caloriesPerMinute,
               isCaloriesReadonly := s.isCaloriesReadonly) == s
  {
    var rate := calories / duration;
    assert rate > 0.0 && duration > 0.0 <==> duration > 0.0 && calories > 0.0;
    RecomputedCalories(duration, calories);
    var category := if s.selectedExerciseType == "custom" then InferCategory(name) else s.selectedExerciseType;
    AfterUpdateCalories(s.(newExercise := s.newExercise.(name := name, duration := duration, category := category),
                           caloriesPerMinute := rate)).(isCaloriesReadonly := true)
  }

  /** The success callback of loadExercises, as written: an empty answer
      empties the list but leaves the totals as they were. */
  function AfterExercisesLoaded(s: PageState, rows: seq<RawExercise>, now: string): (t: PageState)
    ensures |rows| > 0 ==> SummaryConsistent(t) && |t.exercises| == |rows|
    ensures |rows| > 0 ==> forall i :: 0 <= i < |rows| ==> t.exercises[i] == FromRaw(rows[i], now)
    ensures |rows| > 0 ==> t.(exercises := s.exercises, totalExercises := s.totalExercises,
                              totalDuration := s.totalDuration, totalCalories := s.totalCalories) == s
    ensures |rows| == 0 ==> t == s.(exercises := [])
  {
    if |rows| > 0 then WithSummary(s.(exercises := seq(|rows|, i requires 0 <= i < |rows| => FromRaw(rows[i], now))))
    else s.(exercises := [])
  }

  /** The loaded totals do not describe an empty answer that follows a
      non-empty list. */
  lemma StaleTotalsAfterEmptyLoad(s: PageState, now: string)
    requires SummaryConsistent(s) && |s.exercises| > 0
    ensures !SummaryConsistent(AfterExercisesLoaded(s, [], now))
  {
  }

  /** The success callback of loadExercises with the summary recomputed on
      both branches: the totals always describe the list. */
  function AfterExercisesLoadedRecomputing(s: PageState, rows: seq<RawExercise>, now: string): (t: PageState)
    ensures SummaryConsistent(t)
    ensures |t.exercises| == |rows|
    ensures forall i :: 0 <= i < |rows| ==> t.exercises[i] == FromRaw(rows[i], now)
    ensures |rows| == 0 ==> t.totalExercises == 0 && t.totalDuration == 0.0 && t.totalCalories == 0.0
    ensures t.(exercises := s.exercises, totalExercises := s.totalExercises,
               totalDuration := s.totalDuration, totalCalories := s.totalCalories) == s
  {
    WithSummary(s.(exercises := seq(|rows|, i requires 0 <= i < |rows| => FromRaw(rows[i], now))))
  }

  /** The lists onExerciseTypeSelect offers. */
  const ExerciseSuggestions: map<string, seq<string>> := map[
    "cardio" := ["Running", "Jogging", "Cycling", "Swimming", "Jumping Rope", "Brisk Walking"],
    "strength" := ["Push-ups", "Squats", "Lunges", "Dumbbell Curls", "Bench Press", "Deadlifts"],
    "flexibility" := ["Yoga", "Stretching", "Pilates", "Dynamic Stretching", "Static Stretching"],
    "balance" := ["Yoga Balance Poses", "Single-Leg Stands", "Bosu Ball Exercises", "Tai Chi"]
  ]

  /** `exerciseSuggestions[type] || []`. */
  function SuggestionsFor(selectedType: string): (r: seq<string>)
    ensures selectedType !in ExerciseSuggestions ==> r == []
    ensures selectedType in ExerciseSuggestions ==> r == ExerciseSuggestions[selectedType]
  {
    if selectedType in ExerciseSuggestions then ExerciseSuggestions[selectedType] else []
  }

  class ExercisesPage {
    var exercises: seq<Exercise>
    var totalExercises: int
    var totalDuration: real
    var totalCalories: real
    var caloriesPerMinute: real
    var newExercise: ExerciseDraft
    var isEditing: bool
    var editingExerciseId: Option<int>
    var isOpenModal: bool
    var isCaloriesReadonly: bool
    var selectedExerciseType: string
    var selectedSuggestedExercise: string
    var customExerciseName: string
    var suggestedExercises: seq<string>
    var selectedExerciseResult: Option<SearchResult>

    ghost function State(): PageState
      reads this
    {
      PageState(exercises, totalExercises, totalDuration, totalCalories, caloriesPerMinute, newExercise,
                isEditing, editingExerciseId, isOpenModal, isCaloriesReadonly, selectedExerciseType,
                selectedSuggestedExercise, customExerciseName, suggestedExercises, selectedExerciseResult)
    }

    /** The field initialisers. */
    constructor (now: string)
      ensures State() == PageState([], 0, 0.0, 0.0, 0.0, EmptyDraft(now), false, None, false, true,
                                   "", "", "", [], None)
      ensures SummaryConsistent(State())
    {
      exercises := [];
      totalExercises, totalDuration, totalCalories, caloriesPerMinute := 0, 0.0, 0.0, 0.0;
      newExercise := EmptyDraft(now);
      isEditing, editingExerciseId, isOpenModal, isCaloriesReadonly := false, None, false, true;
      selectedExerciseType, selectedSuggestedExercise, customExerciseName := "", "", "";
      suggestedExercises, selectedExerciseResult := [], None;
    }

    /** calculateSummary. */
    method CalculateSummary()
      modifies this
      ensures State() == WithSummary(old(State()))
    {
      totalExercises := |exercises|;
      totalDuration := Total(exercises, DurationOf);
      totalCalories := Total(exercises, CaloriesOf);
    }

    /** The success callback of loadExercises. */
    method OnExercisesLoaded(rows: seq<RawExercise>, now: string)
      modifies this
      ensures State() == AfterExercisesLoaded(old(State()), rows, now)
    {
      if |rows| > 0 {
        exercises := seq(|rows|, i requires 0 <= i < |rows| => FromRaw(rows[i], now));
        CalculateSummary();
      } else {
        exercises := [];
      }
    }

    /** loadExercises' success callback with the summary recomputed on both branches. */
    method OnExercisesLoadedRecomputing(rows: seq<RawExercise>, now: string)
      modifies this
      ensures State() == AfterExercisesLoadedRecomputing(old(State()), rows, now)
      ensures SummaryConsistent(State())
    {
      exercises := seq(|rows|, i requires 0 <= i < |rows| => FromRaw(rows[i], now));
      CalculateSummary();
    }

    /** The success branch of deleteExercise: the entries with `id` leave the
        list, the rest keep their order, and the totals are recomputed. */
    method OnExerciseDeleted(id: int)
      modifies this
      ensures State() == WithSummary(old(State()).(exercises := WithoutId(old(exercises), id)))
      ensures forall e :: e in exercises <==> e in old(exercises) && e.id != id
      ensures totalExercises == |old(exercises)| - |WithId(old(exercises), id)|
      ensures totalDuration == Total(old(exercises), DurationOf) - Total(WithId(old(exercises), id), DurationOf)
      ensures totalCalories == Total(old(exercises), CaloriesOf) - Total(WithId(old(exercises), id), CaloriesOf)
    {
      DeletePartition(exercises, id, DurationOf);
      DeletePartition(exercises, id, CaloriesOf);
      exercises := WithoutId(exercises, id);
      CalculateSummary();
    }

    /** resetExerciseForm. */
    method ResetExerciseForm(now: string)
      modifies this
      ensures State() == AfterResetExerciseForm(old(State()), now)
    {
      newExercise := EmptyDraft(now);
      caloriesPerMinute := 0.0;
      isCaloriesReadonly := false;
      selectedExerciseResult := None;
    }

    /** resetForm (the Angular form reset itself is left out). */
    method ResetForm(now: string)
      modifies this
      ensures State() == AfterResetForm(old(State()), now)
    {
      isEditing := false;
      editingExerciseId := None;
      newExercise := EmptyDraft(now);
    }

    /** openModal: editing an exercise copies its fields into the form and
        derives the rate from them; anything else resets the form. The modal
        is open afterwards. */
    method OpenModal(editing: bool, exercise: Option<Exercise>, now: string)
      requires editing && exercise.Some? ==> exercise.value.duration != 0.0
      modifies this
      ensures isOpenModal && isEditing == editing
      ensures editing && exercise.Some? ==>
        var e := exercise.value;
        State() == old(State()).(isEditing := true, editingExerciseId := Some(e.id),
          newExercise := ExerciseDraft(e.name, e.category, e.duration, e.caloriesBurned, e.date),
          caloriesPerMinute := e.caloriesBurned / e.duration, isOpenModal := true)
      ensures !(editing && exercise.Some?) ==>
        State() == AfterResetExerciseForm(old(State()), now).(isEditing := editing, isOpenModal := true)
    {
      isEditing := editing;
      if editing && exercise.Some? {
        var e := exercise.value;
        editingExerciseId := Some(e.id);
        newExercise := ExerciseDraft(e.name, e.category, e.duration, e.caloriesBurned, e.date);
        caloriesPerMinute := e.caloriesBurned / e.duration;
      } else {
        ResetExerciseForm(now);
      }
      isOpenModal := true;
    }

    /** closeModal. */
    method CloseModal()
      modifies this
      ensures State() == old(State()).(isOpenModal := false)
    {
      isOpenModal := false;
    }

    /** The start of addOrUpdateExercise: stamp the draft with the current
        time and choose between an update and an add. */
    method BeginSave(now: string, userId: Option<int>) returns (request: SaveRequest)
      modifies this
      ensures State() == old(State()).(newExercise := old(newExercise).(date := now))
      ensures request.draft == newExercise && request.userId == userId
      ensures request.UpdateExercise? <==> isEditing && editingExerciseId.Some?
      ensures request.UpdateExercise? ==> request.id == editingExerciseId.value
    {
      newExercise := newExercise.(date := now);
      if isEditing && editingExerciseId.Some? {
        request := UpdateExercise(newExercise, userId, editingExerciseId.value);
      } else {
        request := AddExercise(newExercise, userId);
      }
    }

    /** The success branch of addOrUpdateExercise (the reload that follows is
        the loadExercises callback). */
    method OnSaveSucceeded(now: string)
      modifies this
      ensures State() == AfterResetForm(old(State()), now).(isOpenModal := false)
    {
      CloseModal();
      ResetForm(now);
    }

    /** updateCalories. */
    method UpdateCalories()
      modifies this
      ensures State() == AfterUpdateCalories(old(State()))
      ensures old(caloriesPerMinute) > 0.0 && old(newExercise.duration) > 0.0 ==>
                newExercise.caloriesBurned == Round(old(newExercise.duration) * old(caloriesPerMinute)) as real
    {
      if caloriesPerMinute > 0.0 && newExercise.duration > 0.0 {
        var calories := CaloriesFor(newExercise.duration, caloriesPerMinute);
        assert calories == Round(newExercise.duration * caloriesPerMinute);
        newExercise := newExercise.(caloriesBurned := calories as real);
      }
    }

    /** onDurationChange: recompute only when a rate is set. */
    method OnDurationChange()
      modifies this
      ensures State() == if old(caloriesPerMinute) > 0.0 then AfterUpdateCalories(old(State())) else old(State())
    {
      if caloriesPerMinute > 0.0 {
        UpdateCalories();
      }
    }

    /** onCaloriesFocus. */
    method OnCaloriesFocus()
      modifies this
      ensures State() == old(State()).(isCaloriesReadonly := false)
    {
      isCaloriesReadonly := false;
    }

    /** onExerciseTypeSelect. */
    method OnExerciseTypeSelect(selectedType: string)
      modifies this
      ensures selectedType != "custom" ==>
        State() == old(State()).(suggestedExercises := SuggestionsFor(selectedType),
                                 selectedSuggestedExercise := "", selectedExerciseResult := None)
      ensures selectedType == "custom" ==>
        State() == old(State()).(suggestedExercises := [], customExerciseName := "", selectedExerciseResult := None)
    {
      if selectedType != "custom" {
        suggestedExercises := SuggestionsFor(selectedType);
        selectedSuggestedExercise := "";
        selectedExerciseResult := None;
      } else {
        suggestedExercises := [];
        customExerciseName := "";
        selectedExerciseResult := None;
      }
    }

    /** The success callback of searchNutritionixExercises: `found` is None
        when the answer has no `exercises` list. The first match is kept,
        its calories rounded. */
    method OnSearchResult(found: Option<seq<NutritionixExercise>>)
      modifies this
      ensures found.Some? && |found.value| > 0 ==>
        var e := found.value[0];
        State() == old(State()).(selectedExerciseResult := Some(SearchResult(e.name, e.durationMin, Round(e.nfCalories))))
      ensures found.None? || |found.value| == 0 ==> State() == old(State()).(selectedExerciseResult := None)
    {
      if found.Some? && |found.value| > 0 {
        var e := found.value[0];
        selectedExerciseResult := Some(SearchResult(e.name, e.durationMin, Round(e.nfCalories)));
      } else {
        selectedExerciseResult := None;
      }
    }

    /** populateExerciseDetails: the kept search result, if any, fills the
        form. */
    method PopulateExerciseDetails()
      requires selectedExerciseResult.Some? ==> selectedExerciseResult.value.duration != 0.0
      modifies this
      ensures old(selectedExerciseResult).None? ==> State() == old(State())
      ensures old(selectedExerciseResult).Some? ==>
        var r := old(selectedExerciseResult).value;
        State() == AfterFillFromExercise(old(State()), r.name, r.duration, r.calories as real)
    {
      if selectedExerciseResult.Some? {
        var r := selectedExerciseResult.value;
        newExercise := newExercise.(name := r.name, duration := r.duration);
        caloriesPerMinute := r.calories as real / r.duration;
        newExercise := newExercise.(category :=
          if selectedExerciseType == "custom" then InferCategory(r.name) else selectedExerciseType);
        UpdateCalories();
        isCaloriesReadonly := true;
      }
    }

    /** selectNutritionixExercise: the same filling, straight from a
        Nutritionix entry. */
    method SelectNutritionixExercise(e: NutritionixExercise)
      requires e.durationMin != 0.0
      modifies this
      ensures State() == AfterFillFromExercise(old(State()), e.name, e.durationMin, e.nfCalories)
    {
      newExercise := newExercise.(name := e.name, duration := e.durationMin);
      caloriesPerMinute := e.nfCalories / e.durationMin;
      newExercise := newExercise.(category :=
        if selectedExerciseType != "custom" then selectedExerciseType else InferCategory(e.name));
      UpdateCalories();
      isCaloriesReadonly := true;
    }

    /** updateExerciseDetails: duration, rounded calories and rate from a
        Nutritionix entry. */
    method UpdateExerciseDetails(e: NutritionixExercise)
      requires e.durationMin != 0.0
      modifies this
      ensures State() == old(State()).(
        newExercise := old(newExercise).(duration := e.durationMin, caloriesBurned := Round(e.nfCalories) as real),
        caloriesPerMinute := e.nfCalories / e.durationMin)
    {
      newExercise := newExercise.(duration := e.durationMin);
      newExercise := newExercise.(caloriesBurned := NumberOr(Some(Round(e.nfCalories) as real), 0.0));
      caloriesPerMinute := NumberOr(Some(e.nfCalories / e.durationMin), 0.0);
    }
  }

  /** Opening an exercise with whole positive calories for editing and then
      changing nothing: recomputing from the derived rate gives back the same
      calories, so the form is unchanged. */
  lemma EditThenRecomputeIsStable(s: PageState, e: Exercise, calories: int)
    requires e.duration > 0.0 && calories > 0 && e.caloriesBurned == calories as real
    ensures var edited := s.(isEditing := true, editingExerciseId := Some(e.id),
              newExercise := ExerciseDraft(e.name, e.category, e.duration, e.caloriesBurned, e.date),
              caloriesPerMinute := e.caloriesBurned / e.duration, isOpenModal := true);
            AfterUpdateCalories(edited) == edited
  {
    RecomputedCalories(e.duration, calories as real);
    RoundOfInteger(calories);
    assert e.caloriesBurned / e.duration > 0.0;
  }

}
