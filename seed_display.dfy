/** What the views show for the documents the seed command writes: the leaderboard rows
    (rank classes, stars, team and count labels), the user rows, the workout badges and
    the team themes. The documents are serialised with the field names of the models. */
module SeedDisplay {
  import opened Wrappers
  import opened JsValues
  import opened SeedData
  import opened SeedActivities
  import opened SeedLeaderboard
  import opened SeedRanking
  import opened SeedWorkouts
  import opened Populate
  import opened LeaderboardView
  import opened WorkoutsView
  import opened UsersView
  import TeamsView

  /** A leaderboard document as the API returns it (without `id`, distance and date). */
  function EntryJson(e: Entry): (j: Json)
    ensures j.JObj?
    ensures GetProp(j, "rank") == Success(Some(JNum(e.rank)))
    ensures GetProp(j, "team") == Success(Some(JStr(e.team)))
    ensures GetProp(j, "total_activities") == Success(Some(JNum(e.totalActivities)))
  {
    JObj(map[
      "user_email" := JStr(e.userEmail),
      "user_name" := JStr(e.userName),
      "team" := JStr(e.team),
      "total_activities" := JNum(e.totalActivities),
      "total_calories" := JNum(e.totalCalories),
      "total_duration_minutes" := JNum(e.totalDuration),
      "rank" := JNum(e.rank)])
  }

  /** A user document as the API returns it (without `id`). */
  function UserJson(u: User): (j: Json)
    ensures j.JObj?
    ensures GetProp(j, "team") == Success(Some(JStr(u.team)))
    ensures GetProp(j, "role") == Success(Some(JStr(u.role)))
  {
    JObj(map["name" := JStr(u.name), "email" := JStr(u.email), "team" := JStr(u.team), "role" := JStr(u.role)])
  }

  /** Rows ranked 1, 2, 3, ...: the first three rows get the three podium classes and a
      star, every later row the default class and no star. */
  lemma RankedRows(board: seq<Entry>)
    requires forall i :: 0 <= i < |board| ==> board[i].rank == i + 1
    ensures forall i :: 0 <= i < |board| ==>
              (StarShown(GetProp(EntryJson(board[i]), "rank").value) <==> i < 3)
    ensures forall i :: 0 <= i < |board| ==>
              RankBadgeClass(GetProp(EntryJson(board[i]), "rank").value) ==
                (if i == 0 then RankOneClass else if i == 1 then RankTwoClass
                 else if i == 2 then RankThreeClass else OtherRankClass)
  {
    forall i | 0 <= i < |board|
      ensures StarShown(Some(JNum(board[i].rank))) <==> i < 3
    {
      StarIffPodium(board[i].rank);
    }
  }

  /** An entry of the seeded leaderboard belongs to one of the seeded users. */
  lemma SeededEntryOwner(plan: seq<seq<ActivityDraw>>, board: seq<Entry>, i: nat)
    requires ValidPlan(SeedUsers, plan) && i < |board|
    requires StablyRearranged(UserOrderBoard(SeedUsers, ActivitiesOf(SeedUsers, plan)), Unranked(board))
    ensures exists k :: 0 <= k < |SeedUsers| &&
              board[i].(rank := 0) == EntryFor(SeedUsers[k], ActivitiesOf(SeedUsers, plan))
  {
    var users := UserOrderBoard(SeedUsers, ActivitiesOf(SeedUsers, plan));
    assert Unranked(board)[i] in multiset(users);
    var k :| 0 <= k < |users| && users[k] == Unranked(board)[i];
  }

  /** Every row of the seeded leaderboard shows its team's name, never 'N/A', and its
      activity count of 5 to 15, never the default 0. */
  lemma SeededLeaderboardLabels(plan: seq<seq<ActivityDraw>>, board: seq<Entry>)
    requires ValidPlan(SeedUsers, plan)
    requires StablyRearranged(UserOrderBoard(SeedUsers, ActivitiesOf(SeedUsers, plan)), Unranked(board))
    ensures forall i :: 0 <= i < |board| ==>
              TeamLabel(GetProp(EntryJson(board[i]), "team").value) == JStr(board[i].team) &&
              board[i].team in {"Team Marvel", "Team DC"}
    ensures forall i :: 0 <= i < |board| ==>
              ActivitiesLabel(GetProp(EntryJson(board[i]), "total_activities").value) == JNum(board[i].totalActivities) &&
              5 <= board[i].totalActivities <= 15
  {
    forall i | 0 <= i < |board|
      ensures board[i].team in {"Team Marvel", "Team DC"}
      ensures 5 <= board[i].totalActivities <= 15
    {
      SeededEntryFields(plan, board, i);
    }
  }

  /** The team of a seeded entry is one of the two seeded teams, and its count is 5 to 15. */
  lemma SeededEntryFields(plan: seq<seq<ActivityDraw>>, board: seq<Entry>, i: nat)
    requires ValidPlan(SeedUsers, plan) && i < |board|
    requires StablyRearranged(UserOrderBoard(SeedUsers, ActivitiesOf(SeedUsers, plan)), Unranked(board))
    ensures board[i].team in {"Team Marvel", "Team DC"}
    ensures 5 <= board[i].totalActivities <= 15
  {
    SeedEmailsDistinct();
    SeedTeamsListTheirUsers();
    SeededEntryOwner(plan, board, i);
    var k :| 0 <= k < |SeedUsers| && board[i].(rank := 0) == EntryFor(SeedUsers[k], ActivitiesOf(SeedUsers, plan));
    EntryTotals(SeedUsers, plan, k);
  }

  /** Every seeded user row shows its team and its role, never the placeholder. */
  lemma SeededUserCells()
    ensures forall u :: u in SeedUsers ==>
              FieldCell(UserJson(u), "team") == Shown(JStr(u.team)) &&
              FieldCell(UserJson(u), "role") == Shown(JStr(u.role))
  {
    forall u | u in SeedUsers
      ensures FieldCell(UserJson(u), "team") == Shown(JStr(u.team))
      ensures FieldCell(UserJson(u), "role") == Shown(JStr(u.role))
    {
      assert u.team != "" && u.role != "";
      NonEmptyFieldsShown(UserJson(u), u.team, u.role);
    }
  }

  /** Every seeded workout gets a coloured difficulty badge: success, warning or danger,
      never the secondary one. */
  lemma SeededWorkoutBadges(draws: seq<seq<WorkoutDraw>>)
    requires ValidWorkoutDraws(WorkoutCategories, draws)
    ensures forall w :: w in WorkoutsOf(WorkoutCategories, draws) ==>
              DifficultyBadge(Some(JStr(w.difficulty))) in {Some(BgSuccess), Some(BgWarning), Some(BgDanger)}
  {
    WorkoutsInRange(WorkoutCategories, draws);
    DifficultiesColoured();
  }

  lemma DifficultiesColoured()
    ensures forall d :: d in WorkoutDifficulties ==>
              DifficultyBadge(Some(JStr(d))) in {Some(BgSuccess), Some(BgWarning), Some(BgDanger)}
  {
    forall d | d in WorkoutDifficulties
      ensures DifficultyBadge(Some(JStr(d))) in {Some(BgSuccess), Some(BgWarning), Some(BgDanger)}
    {
      assert d == "Beginner" || d == "Intermediate" || d == "Advanced";
      if d == "Beginner" {
        BeginnerBadge();
      } else if d == "Intermediate" {
        IntermediateBadge();
      } else {
        AdvancedBadge();
      }
    }
  }

  /** The seeded teams get their own themes. */
  lemma SeededTeamThemes()
    ensures TeamsView.GetTeamTheme(SeedTeams[0].name) == TeamsView.MarvelTheme
    ensures TeamsView.GetTeamTheme(SeedTeams[1].name) == TeamsView.DcTheme
  {
    TeamsView.TeamMarvelTheme();
    TeamsView.TeamDcTheme();
  }

  /** A workout document as the API returns it (without `id` and `created_at`). */
  function WorkoutJson(w: Workout): Json {
    JObj(map[
      "name" := JStr(w.name),
      "category" := JStr(w.category),
      "description" := JStr(w.description),
      "duration_minutes" := JNum(w.durationMinutes),
      "difficulty" := JStr(w.difficulty),
      "calories_per_hour" := JNum(w.caloriesPerHour),
      "equipment_needed" := JStr(w.equipmentNeeded)])
  }

  /** An activity document as the API returns it (without `id`, distance, date and notes). */
  function ActivityJson(a: Activity): Json {
    JObj(map[
      "user_email" := JStr(a.userEmail),
      "user_name" := JStr(a.userName),
      "team" := JStr(a.team),
      "activity_type" := JStr(a.activityType),
      "duration_minutes" := JNum(a.durationMinutes),
      "calories_burned" := JNum(a.caloriesBurned)])
  }

  /** The duration and calorie cells of a workout card as written: `workout.duration`
      and `workout.calories_burned`. */
  function WorkoutCardAsWritten(workout: Json): (Option<Json>, Option<Json>)
    requires !workout.JNull?
  {
    (GetProp(workout, "duration").value, GetProp(workout, "calories_burned").value)
  }

  /** The same cells read from the fields the API sends: `duration_minutes` and
      `calories_per_hour`. */
  function WorkoutCard(workout: Json): (Option<Json>, Option<Json>)
    requires !workout.JNull?
  {
    (GetProp(workout, "duration_minutes").value, GetProp(workout, "calories_per_hour").value)
  }

  /** As written, both cells of every seeded workout are `undefined` and render empty. */
  lemma WorkoutCardBlankAsWritten(w: Workout)
    ensures WorkoutCardAsWritten(WorkoutJson(w)) == (None, None)
  {
  }

  /** Read from the sent fields, the cells show the workout's duration and calorie rate. */
  lemma WorkoutCardShowsSeed(w: Workout)
    ensures WorkoutCard(WorkoutJson(w)) == (Some(JNum(w.durationMinutes)), Some(JNum(w.caloriesPerHour)))
  {
  }

  /** The duration and calorie cells of an activity row as written: `activity.duration`
      and `activity.calories`. */
  function ActivityRowAsWritten(activity: Json): (Option<Json>, Option<Json>)
    requires !activity.JNull?
  {
    (GetProp(activity, "duration").value, GetProp(activity, "calories").value)
  }

  /** The same cells read from `duration_minutes` and `calories_burned`. */
  function ActivityRow(activity: Json): (Option<Json>, Option<Json>)
    requires !activity.JNull?
  {
    (GetProp(activity, "duration_minutes").value, GetProp(activity, "calories_burned").value)
  }

  /** As written, both cells of every seeded activity are `undefined` and render empty. */
  lemma ActivityRowBlankAsWritten(a: Activity)
    ensures ActivityRowAsWritten(ActivityJson(a)) == (None, None)
  {
  }

  /** Read from the sent fields, the cells show the activity's minutes and calories. */
  lemma ActivityRowShowsSeed(a: Activity)
    ensures ActivityRow(ActivityJson(a)) == (Some(JNum(a.durationMinutes)), Some(JNum(a.caloriesBurned)))
  {
  }
}
