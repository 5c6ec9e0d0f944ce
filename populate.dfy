/** `Command.handle` of the seed command (populate_db.py lines 10-171), with the
    database writes and console output left out: it returns the documents it would
    insert into each collection, given the values `random` returns. */
module Populate {
  import opened SeedData
  import opened SeedActivities
  import opened SeedLeaderboard
  import opened SeedRanking
  import opened SeedWorkouts

  /** The documents inserted into the five collections. */
  datatype Seed = Seed(
    users: seq<User>,
    teams: seq<TeamRecord>,
    activities: seq<Activity>,
    leaderboard: seq<Entry>,
    workouts: seq<Workout>)

  /** The entries with the placeholder rank 0 they had before ranking. */
  function Unranked(board: seq<Entry>): (r: seq<Entry>)
    ensures |r| == |board| && forall i :: 0 <= i < |board| ==> r[i] == board[i].(rank := 0)
  {
    seq(|board|, i requires 0 <= i < |board| => board[i].(rank := 0))
  }

  /** The leaderboard in user order, before sorting. */
  function UserOrderBoard(users: seq<User>, acts: seq<Activity>): (r: seq<Entry>)
    ensures |r| == |users| && forall i :: 0 <= i < |users| ==> r[i] == EntryFor(users[i], acts)
  {
    seq(|users|, i requires 0 <= i < |users| => EntryFor(users[i], acts))
  }

  /** The body of `handle` for any users and workout catalogue: generate the activities,
      aggregate them per user, sort and rank the leaderboard, generate the workouts. */
  method Run(users: seq<User>, teams: seq<TeamRecord>, plan: seq<seq<ActivityDraw>>,
             cats: seq<(string, seq<string>)>, workoutDraws: seq<seq<WorkoutDraw>>) returns (seed: Seed)
    requires ValidPlan(users, plan) && ValidWorkoutDraws(cats, workoutDraws)
    ensures seed.users == users && seed.teams == teams
    ensures seed.activities == ActivitiesOf(users, plan)
    ensures |seed.leaderboard| == |users|
    ensures SortedByCaloriesDesc(seed.leaderboard)
    ensures forall i :: 0 <= i < |seed.leaderboard| ==> seed.leaderboard[i].rank == i + 1
    ensures StablyRearranged(UserOrderBoard(users, seed.activities), Unranked(seed.leaderboard))
    ensures DistinctEmails(users) ==> SumActivities(seed.leaderboard) == |seed.activities|
    ensures seed.workouts == WorkoutsOf(cats, workoutDraws)
  {
    var acts := GenerateActivities(users, plan);
    var board := BuildLeaderboard(users, acts);
    assert board == UserOrderBoard(users, acts);
    var a := new Entry[|board|](i requires 0 <= i < |board| => board[i]);
    assert a[..] == board;
    SortByCaloriesDesc(a);
    ghost var sorted := a[..];
    AssignRanks(a);
    var ws := GenerateWorkouts(cats, workoutDraws);
    seed := Seed(users, teams, acts, a[..], ws);
    RankedIsSortedWithRanks(board, sorted, a[..]);
    if DistinctEmails(users) {
      TotalActivitiesSum(users, plan, board);
      SumActivitiesRearranged(board, sorted);
      SumActivitiesPointwise(sorted, a[..]);
    }
  }

  /** One run of the command on its own data. The leaderboard holds one entry per user,
      ordered by calories from most to fewest with ties in user order, ranked 1 to 12,
      and its activity counts add up to the activities generated. */
  method Handle(plan: seq<seq<ActivityDraw>>, workoutDraws: seq<seq<WorkoutDraw>>) returns (seed: Seed)
    requires ValidPlan(SeedUsers, plan)
    requires ValidWorkoutDraws(WorkoutCategories, workoutDraws)
    ensures seed.users == SeedUsers && seed.teams == SeedTeams
    ensures seed.activities == ActivitiesOf(SeedUsers, plan)
    ensures |seed.leaderboard| == 12
    ensures SortedByCaloriesDesc(seed.leaderboard)
    ensures forall i :: 0 <= i < |seed.leaderboard| ==> seed.leaderboard[i].rank == i + 1
    ensures StablyRearranged(UserOrderBoard(SeedUsers, seed.activities), Unranked(seed.leaderboard))
    ensures SumActivities(seed.leaderboard) == |seed.activities|
    ensures seed.workouts == WorkoutsOf(WorkoutCategories, workoutDraws)
    ensures |seed.workouts| == 18
  {
    SeedEmailsDistinct();
    seed := Run(SeedUsers, SeedTeams, plan, WorkoutCategories, workoutDraws);
    SeededWorkoutCount(workoutDraws);
  }

  /** Writing the ranks into a sorted rearrangement of entries that all had rank 0
      leaves it sorted, and removing the ranks again gives back the rearrangement. */
  lemma RankedIsSortedWithRanks(board: seq<Entry>, sorted: seq<Entry>, ranked: seq<Entry>)
    requires forall i :: 0 <= i < |board| ==> board[i].rank == 0
    requires SortedByCaloriesDesc(sorted) && StablyRearranged(board, sorted)
    requires |ranked| == |sorted| && forall i :: 0 <= i < |sorted| ==> ranked[i] == sorted[i].(rank := i + 1)
    ensures SortedByCaloriesDesc(ranked)
    ensures Unranked(ranked) == sorted
    ensures StablyRearranged(board, Unranked(ranked))
  {
    forall i | 0 <= i < |sorted|
      ensures sorted[i].rank == 0
    {
      assert sorted[i] in multiset(board);
      var k :| 0 <= k < |board| && board[k] == sorted[i];
    }
    assert Unranked(ranked) == sorted;
  }
}
