/** Workout generation of the seed command (populate_db.py lines 137-158): one workout
    per exercise of the catalogue, category by category in dictionary order, named
    after the exercise, filed under its category key, described from its lower-cased
    name, with a random duration (30 to 90), difficulty, calorie rate (200 to 600) and
    equipment. The random draws are inputs; `created_at` is left out. */
module SeedWorkouts {
  import opened Text
  import opened SeedData

  /** A workout document, without `created_at`. */
  datatype Workout = Workout(
    name: string,
    category: string,
    description: string,
    durationMinutes: int,
    difficulty: string,
    caloriesPerHour: int,
    equipmentNeeded: string)

  /** The random values of one workout: `randint(30, 90)`, `random.choice` of a
      difficulty as an index, `randint(200, 600)` and `random.choice` of the equipment. */
  datatype WorkoutDraw = WorkoutDraw(durationMinutes: int, difficultyIndex: nat, caloriesPerHour: int, equipmentIndex: nat)

  /** What `random` can return for one workout. */
  predicate ValidWorkoutDraw(d: WorkoutDraw) {
    30 <= d.durationMinutes <= 90 && d.difficultyIndex < |WorkoutDifficulties| &&
    200 <= d.caloriesPerHour <= 600 && d.equipmentIndex < |EquipmentOptions|
  }

  /** One valid draw per exercise of a category. */
  predicate ValidBlock(exercises: seq<string>, ds: seq<WorkoutDraw>) {
    |ds| == |exercises| && forall j :: 0 <= j < |ds| ==> ValidWorkoutDraw(ds[j])
  }

  /** One draw per exercise, grouped like the catalogue. */
  predicate ValidWorkoutDraws(cats: seq<(string, seq<string>)>, draws: seq<seq<WorkoutDraw>>) {
    |draws| == |cats| && forall i :: 0 <= i < |cats| ==> ValidBlock(cats[i].1, draws[i])
  }

  const DescriptionPrefix: string := "A challenging "
  const DescriptionSuffix: string := " workout routine"

  /** `f"A challenging {exercise.lower()} workout routine"`. */
  function Description(exercise: string): (r: string)
    ensures |r| == |DescriptionPrefix| + |exercise| + |DescriptionSuffix|
    ensures r[..|DescriptionPrefix|] == DescriptionPrefix
    ensures r[|DescriptionPrefix|..|DescriptionPrefix| + |exercise|] == Lower(exercise)
    ensures r[|DescriptionPrefix| + |exercise|..] == DescriptionSuffix
  {
    DescriptionPrefix + Lower(exercise) + DescriptionSuffix
  }

  /** The workout dictionary built for `exercise` of `category` from draw `d`. */
  function MakeWorkout(category: string, exercise: string, d: WorkoutDraw): Workout
    requires ValidWorkoutDraw(d)
  {
    Workout(exercise, category, Description(exercise), d.durationMinutes,
            WorkoutDifficulties[d.difficultyIndex], d.caloriesPerHour, EquipmentOptions[d.equipmentIndex])
  }

  /** The workouts of one category, in exercise order. */
  function CategoryWorkouts(category: string, exercises: seq<string>, ds: seq<WorkoutDraw>): (r: seq<Workout>)
    requires ValidBlock(exercises, ds)
    ensures |r| == |exercises|
    ensures forall j :: 0 <= j < |r| ==> r[j] == MakeWorkout(category, exercises[j], ds[j])
  {
    if exercises == [] then []
    else
      var n := |exercises| - 1;
      CategoryWorkouts(category, exercises[..n], ds[..n]) + [MakeWorkout(category, exercises[n], ds[n])]
  }

  /** `workouts_data` after the loops: one block per category, in dictionary order. */
  function WorkoutsOf(cats: seq<(string, seq<string>)>, draws: seq<seq<WorkoutDraw>>): seq<Workout>
    requires ValidWorkoutDraws(cats, draws)
  {
    if cats == [] then []
    else
      var n := |cats| - 1;
      WorkoutsOf(cats[..n], draws[..n]) + CategoryWorkouts(cats[n].0, cats[n].1, draws[n])
  }

  /** The number of exercises in the catalogue. */
  function ExerciseCount(cats: seq<(string, seq<string>)>): nat {
    if cats == [] then 0 else ExerciseCount(cats[..|cats| - 1]) + |cats[|cats| - 1].1|
  }

  /** The catalogue up to category `i + 1` is the catalogue up to `i` and block `i`. */
  lemma WorkoutsOfPrefix(cats: seq<(string, seq<string>)>, draws: seq<seq<WorkoutDraw>>, i: nat)
    requires ValidWorkoutDraws(cats, draws) && i < |cats|
    ensures ValidWorkoutDraws(cats[..i], draws[..i]) && ValidWorkoutDraws(cats[..i + 1], draws[..i + 1])
    ensures WorkoutsOf(cats[..i + 1], draws[..i + 1]) ==
              WorkoutsOf(cats[..i], draws[..i]) + CategoryWorkouts(cats[i].0, cats[i].1, draws[i])
  {
    assert cats[..i + 1][..i] == cats[..i] && draws[..i + 1][..i] == draws[..i];
  }

  /** The block up to exercise `j + 1` is the block up to `j` and workout `j`. */
  lemma CategoryWorkoutsPrefix(category: string, exercises: seq<string>, ds: seq<WorkoutDraw>, j: nat)
    requires ValidBlock(exercises, ds)
    requires j < |exercises|
    ensures CategoryWorkouts(category, exercises[..j + 1], ds[..j + 1]) ==
              CategoryWorkouts(category, exercises[..j], ds[..j]) + [MakeWorkout(category, exercises[j], ds[j])]
  {
    assert exercises[..j + 1][..j] == exercises[..j] && ds[..j + 1][..j] == ds[..j];
  }

  /** The inner loop of lines 147-158: the workouts of one category appended to `ws`. */
  method AppendCategory(ws: seq<Workout>, category: string, exercises: seq<string>, ds: seq<WorkoutDraw>)
    returns (r: seq<Workout>)
    requires ValidBlock(exercises, ds)
    ensures r == ws + CategoryWorkouts(category, exercises, ds)
  {
    r := ws;
    var j := 0;
    while j < |exercises|
      invariant 0 <= j <= |exercises|
      invariant r == ws + CategoryWorkouts(category, exercises[..j], ds[..j])
    {
      CategoryWorkoutsPrefix(category, exercises, ds, j);
      r := r + [MakeWorkout(category, exercises[j], ds[j])];
      j := j + 1;
    }
    assert exercises[..j] == exercises && ds[..j] == ds;
  }

  /** The nested loops of lines 146-158, appending to `workouts_data`. */
  method GenerateWorkouts(cats: seq<(string, seq<string>)>, draws: seq<seq<WorkoutDraw>>) returns (ws: seq<Workout>)
    requires ValidWorkoutDraws(cats, draws)
    ensures ws == WorkoutsOf(cats, draws)
  {
    ws := [];
    var i := 0;
    assert ValidWorkoutDraws(cats[..0], draws[..0]);
    while i < |cats|
      invariant 0 <= i <= |cats|
      invariant ValidWorkoutDraws(cats[..i], draws[..i])
      invariant ws == WorkoutsOf(cats[..i], draws[..i])
    {
      var (category, exercises) := cats[i];
      WorkoutsOfPrefix(cats, draws, i);
      ws := AppendCategory(ws, category, exercises, draws[i]);
      i := i + 1;
    }
    assert cats[..i] == cats && draws[..i] == draws;
  }

  /** The workouts filed under category `c`, in list order. */
  function InCategory(ws: seq<Workout>, c: string): (r: seq<Workout>)
    ensures forall w :: w in r <==> w in ws && w.category == c
  {
    if ws == [] then []
    else
      var n := |ws| - 1;
      InCategory(ws[..n], c) + (if ws[n].category == c then [ws[n]] else [])
  }

  /** The names of a list of workouts. */
  function Names(ws: seq<Workout>): (r: seq<string>)
    ensures |r| == |ws| && forall k :: 0 <= k < |ws| ==> r[k] == ws[k].name
  {
    if ws == [] then [] else Names(ws[..|ws| - 1]) + [ws[|ws| - 1].name]
  }

  lemma {:induction false} InCategoryConcat(xs: seq<Workout>, ys: seq<Workout>, c: string)
    ensures InCategory(xs + ys, c) == InCategory(xs, c) + InCategory(ys, c)
    decreases |ys|
  {
    if ys == [] {
      assert xs + ys == xs;
    } else {
      var n := |ys| - 1;
      assert (xs + ys)[..|xs + ys| - 1] == xs + ys[..n];
      assert (xs + ys)[|xs + ys| - 1] == ys[n];
      InCategoryConcat(xs, ys[..n], c);
    }
  }

  lemma {:induction false} InCategoryBlock(category: string, exercises: seq<string>, ds: seq<WorkoutDraw>, c: string)
    requires ValidBlock(exercises, ds)
    ensures InCategory(CategoryWorkouts(category, exercises, ds), c) ==
            if c == category then CategoryWorkouts(category, exercises, ds) else []
  {
    if exercises != [] {
      var n := |exercises| - 1;
      InCategoryBlock(category, exercises[..n], ds[..n], c);
    }
  }

  /** A key none of the categories has holds no workout. */
  lemma {:induction false} NoWorkoutsOutside(cats: seq<(string, seq<string>)>, draws: seq<seq<WorkoutDraw>>, c: string)
    requires ValidWorkoutDraws(cats, draws) && forall i :: 0 <= i < |cats| ==> cats[i].0 != c
    ensures InCategory(WorkoutsOf(cats, draws), c) == []
  {
    if cats != [] {
      var n := |cats| - 1;
      assert ValidWorkoutDraws(cats[..n], draws[..n]);
      InCategoryConcat(WorkoutsOf(cats[..n], draws[..n]), CategoryWorkouts(cats[n].0, cats[n].1, draws[n]), c);
      InCategoryBlock(cats[n].0, cats[n].1, draws[n], c);
      NoWorkoutsOutside(cats[..n], draws[..n], c);
    }
  }

  /** Splitting off the last category. */
  lemma InCategoryLast(cats: seq<(string, seq<string>)>, draws: seq<seq<WorkoutDraw>>, c: string)
    requires ValidWorkoutDraws(cats, draws) && |cats| > 0
    ensures var n := |cats| - 1;
            ValidWorkoutDraws(cats[..n], draws[..n]) &&
            InCategory(WorkoutsOf(cats, draws), c) ==
              InCategory(WorkoutsOf(cats[..n], draws[..n]), c) +
              (if c == cats[n].0 then CategoryWorkouts(cats[n].0, cats[n].1, draws[n]) else [])
  {
    var n := |cats| - 1;
    assert ValidWorkoutDraws(cats[..n], draws[..n]);
    InCategoryConcat(WorkoutsOf(cats[..n], draws[..n]), CategoryWorkouts(cats[n].0, cats[n].1, draws[n]), c);
    InCategoryBlock(cats[n].0, cats[n].1, draws[n], c);
  }

  /** The workouts filed under the key of category `k` are exactly one per exercise of
      that category, in exercise order, each named after its exercise. */
  lemma OnePerExercise(cats: seq<(string, seq<string>)>, draws: seq<seq<WorkoutDraw>>, k: nat)
    requires ValidWorkoutDraws(cats, draws) && DistinctKeys(cats) && k < |cats|
    ensures InCategory(WorkoutsOf(cats, draws), cats[k].0) == CategoryWorkouts(cats[k].0, cats[k].1, draws[k])
    ensures Names(InCategory(WorkoutsOf(cats, draws), cats[k].0)) == cats[k].1
  {
    BlockOfKey(cats, draws, k);
    NamesOfCategory(cats[k].0, cats[k].1, draws[k]);
  }

  /** The workouts filed under the key of category `k` are that category's block. */
  lemma {:induction false} BlockOfKey(cats: seq<(string, seq<string>)>, draws: seq<seq<WorkoutDraw>>, k: nat)
    requires ValidWorkoutDraws(cats, draws) && DistinctKeys(cats) && k < |cats|
    ensures InCategory(WorkoutsOf(cats, draws), cats[k].0) == CategoryWorkouts(cats[k].0, cats[k].1, draws[k])
    decreases |cats|, 1
  {
    if k < |cats| - 1 {
      BlockOfEarlierKey(cats, draws, k);
    } else {
      BlockOfLastKey(cats, draws);
    }
  }

  lemma {:induction false} BlockOfEarlierKey(cats: seq<(string, seq<string>)>, draws: seq<seq<WorkoutDraw>>, k: nat)
    requires ValidWorkoutDraws(cats, draws) && DistinctKeys(cats) && k < |cats| - 1
    ensures InCategory(WorkoutsOf(cats, draws), cats[k].0) == CategoryWorkouts(cats[k].0, cats[k].1, draws[k])
    decreases |cats|, 0
  {
    var n := |cats| - 1;
    InCategoryLast(cats, draws, cats[k].0);
    assert DistinctKeys(cats[..n]) && cats[n].0 != cats[k].0;
    BlockOfKey(cats[..n], draws[..n], k);
    assert cats[..n][k] == cats[k] && draws[..n][k] == draws[k];
  }

  lemma BlockOfLastKey(cats: seq<(string, seq<string>)>, draws: seq<seq<WorkoutDraw>>)
    requires ValidWorkoutDraws(cats, draws) && DistinctKeys(cats) && |cats| > 0
    ensures var n := |cats| - 1;
            InCategory(WorkoutsOf(cats, draws), cats[n].0) == CategoryWorkouts(cats[n].0, cats[n].1, draws[n])
  {
    var n := |cats| - 1;
    var c := cats[n].0;
    InCategoryLast(cats, draws, c);
    assert forall i :: 0 <= i < |cats[..n]| ==> cats[..n][i].0 != c;
    NoWorkoutsOutside(cats[..n], draws[..n], c);
  }

  lemma NamesOfCategory(category: string, exercises: seq<string>, ds: seq<WorkoutDraw>)
    requires ValidBlock(exercises, ds)
    ensures Names(CategoryWorkouts(category, exercises, ds)) == exercises
  {
  }

  /** There is one workout per exercise of the catalogue. */
  lemma {:induction false} WorkoutsCount(cats: seq<(string, seq<string>)>, draws: seq<seq<WorkoutDraw>>)
    requires ValidWorkoutDraws(cats, draws)
    ensures |WorkoutsOf(cats, draws)| == ExerciseCount(cats)
  {
    if cats != [] {
      var n := |cats| - 1;
      assert ValidWorkoutDraws(cats[..n], draws[..n]);
      WorkoutsCount(cats[..n], draws[..n]);
    }
  }

  /** Every generated workout has a category key and exercise of the catalogue, a
      difficulty and equipment from the fixed choices, and values within the drawn ranges. */
  lemma {:induction false} WorkoutsInRange(cats: seq<(string, seq<string>)>, draws: seq<seq<WorkoutDraw>>)
    requires ValidWorkoutDraws(cats, draws)
    ensures forall w :: w in WorkoutsOf(cats, draws) ==>
              w.difficulty in WorkoutDifficulties && w.equipmentNeeded in EquipmentOptions &&
              30 <= w.durationMinutes <= 90 && 200 <= w.caloriesPerHour <= 600 &&
              w.description == Description(w.name) &&
              exists i :: 0 <= i < |cats| && w.category == cats[i].0 && w.name in cats[i].1
  {
    if cats != [] {
      var n := |cats| - 1;
      assert ValidWorkoutDraws(cats[..n], draws[..n]);
      WorkoutsInRange(cats[..n], draws[..n]);
      forall w | w in WorkoutsOf(cats, draws)
        ensures w.difficulty in WorkoutDifficulties && w.equipmentNeeded in EquipmentOptions
        ensures 30 <= w.durationMinutes <= 90 && 200 <= w.caloriesPerHour <= 600
        ensures w.description == Description(w.name)
        ensures exists i :: 0 <= i < |cats| && w.category == cats[i].0 && w.name in cats[i].1
      {
        if w in WorkoutsOf(cats[..n], draws[..n]) {
          var i :| 0 <= i < n && w.category == cats[..n][i].0 && w.name in cats[..n][i].1;
          assert cats[i] == cats[..n][i];
        } else {
          var j :| 0 <= j < |cats[n].1| && w == CategoryWorkouts(cats[n].0, cats[n].1, draws[n])[j];
          assert ValidWorkoutDraw(draws[n][j]);
        }
      }
    }
  }

  lemma ExerciseCountOfFour(cats: seq<(string, seq<string>)>)
    requires |cats| == 4
    ensures ExerciseCount(cats) == |cats[0].1| + |cats[1].1| + |cats[2].1| + |cats[3].1|
  {
    assert cats[..1][..0] == [];
    assert ExerciseCount(cats[..1]) == |cats[0].1|;
    assert cats[..2][..1] == cats[..1];
    assert ExerciseCount(cats[..2]) == |cats[0].1| + |cats[1].1|;
    assert cats[..3][..2] == cats[..2];
    assert ExerciseCount(cats[..3]) == |cats[0].1| + |cats[1].1| + |cats[2].1|;
    assert cats[..3] == cats[..|cats| - 1];
  }

  /** The seeded catalogue gives eighteen workouts. */
  lemma SeededWorkoutCount(draws: seq<seq<WorkoutDraw>>)
    requires ValidWorkoutDraws(WorkoutCategories, draws)
    ensures |WorkoutsOf(WorkoutCategories, draws)| == 18
  {
    WorkoutsCount(WorkoutCategories, draws);
    ExerciseCountOfFour(WorkoutCategories);
  }
}
