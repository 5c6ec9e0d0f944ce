/** Leaderboard aggregation of the seed command (populate_db.py lines 108-127): one
    entry per user, in user order, holding the count and the calorie and duration sums
    of the activities recorded under that user's e-mail, with rank 0 until ranking. */
module SeedLeaderboard {
  import opened SeedData
  import opened SeedActivities

  /** A leaderboard document, without `total_distance_km` and `last_updated`. */
  datatype Entry = Entry(
    userEmail: string,
    userName: string,
    team: string,
    totalActivities: nat,
    totalCalories: int,
    totalDuration: int,
    rank: int)

  /** `[a for a in activities_data if a["user_email"] == email]`. */
  function OfUser(acts: seq<Activity>, email: string): (r: seq<Activity>)
    ensures |r| <= |acts|
    ensures forall a :: a in r <==> a in acts && a.userEmail == email
  {
    if acts == [] then []
    else
      var n := |acts| - 1;
      OfUser(acts[..n], email) + (if acts[n].userEmail == email then [acts[n]] else [])
  }

  /** `sum(a["calories_burned"] for a in acts)`. */
  function SumCalories(acts: seq<Activity>): int {
    if acts == [] then 0 else SumCalories(acts[..|acts| - 1]) + acts[|acts| - 1].caloriesBurned
  }

  /** `sum(a["duration_minutes"] for a in acts)`. */
  function SumDuration(acts: seq<Activity>): int {
    if acts == [] then 0 else SumDuration(acts[..|acts| - 1]) + acts[|acts| - 1].durationMinutes
  }

  /** The entry built for user `u` (lines 111-126). */
  function EntryFor(u: User, acts: seq<Activity>): Entry {
    var mine := OfUser(acts, u.email);
    Entry(u.email, u.name, u.team, |mine|, SumCalories(mine), SumDuration(mine), 0)
  }

  /** The loop of lines 110-127, appending to `leaderboard_data`. */
  method BuildLeaderboard(users: seq<User>, acts: seq<Activity>) returns (board: seq<Entry>)
    ensures |board| == |users|
    ensures forall i :: 0 <= i < |users| ==> board[i] == EntryFor(users[i], acts)
  {
    board := [];
    var i := 0;
    while i < |users|
      invariant 0 <= i <= |users|
      invariant |board| == i
      invariant forall k :: 0 <= k < i ==> board[k] == EntryFor(users[k], acts)
    {
      board := board + [EntryFor(users[i], acts)];
      i := i + 1;
    }
  }

  /** The sum of `total_activities` over a list of entries. */
  function SumActivities(board: seq<Entry>): int {
    if board == [] then 0 else SumActivities(board[..|board| - 1]) + board[|board| - 1].totalActivities
  }

  /** The calories a list of draws asks for. */
  function DrawnCalories(ds: seq<ActivityDraw>): int {
    if ds == [] then 0 else DrawnCalories(ds[..|ds| - 1]) + ds[|ds| - 1].caloriesBurned
  }

  /** The minutes a list of draws asks for. */
  function DrawnDuration(ds: seq<ActivityDraw>): int {
    if ds == [] then 0 else DrawnDuration(ds[..|ds| - 1]) + ds[|ds| - 1].durationMinutes
  }

  /** Filtering distributes over concatenation. */
  lemma {:induction false} OfUserConcat(xs: seq<Activity>, ys: seq<Activity>, email: string)
    ensures OfUser(xs + ys, email) == OfUser(xs, email) + OfUser(ys, email)
    decreases |ys|
  {
    if ys == [] {
      assert xs + ys == xs;
    } else {
      var n := |ys| - 1;
      assert (xs + ys)[..|xs + ys| - 1] == xs + ys[..n];
      assert (xs + ys)[|xs + ys| - 1] == ys[n];
      OfUserConcat(xs, ys[..n], email);
    }
  }

  /** One user's block holds only that user's e-mail. */
  lemma {:induction false} OfUserBlock(u: User, ds: seq<ActivityDraw>, email: string)
    requires ValidDraws(ds)
    ensures OfUser(ActivitiesFor(u, ds), email) == if email == u.email then ActivitiesFor(u, ds) else []
  {
    if ds != [] {
      var n := |ds| - 1;
      OfUserBlock(u, ds[..n], email);
      assert ActivitiesFor(u, ds)[..n] == ActivitiesFor(u, ds[..n]);
    }
  }

  /** Splitting off the last user. */
  lemma OfUserLast(users: seq<User>, plan: seq<seq<ActivityDraw>>, email: string)
    requires ValidPlan(users, plan) && |users| > 0
    ensures var n := |users| - 1;
            ValidPlan(users[..n], plan[..n]) &&
            OfUser(ActivitiesOf(users, plan), email) ==
              OfUser(ActivitiesOf(users[..n], plan[..n]), email) +
              (if email == users[n].email then ActivitiesFor(users[n], plan[n]) else [])
  {
    var n := |users| - 1;
    assert ValidPlan(users[..n], plan[..n]);
    OfUserConcat(ActivitiesOf(users[..n], plan[..n]), ActivitiesFor(users[n], plan[n]), email);
    OfUserBlock(users[n], plan[n], email);
  }

  /** With distinct e-mails, the activities found for user `k` are exactly the block
      generated for that user, in generation order. */
  lemma {:induction false} GroupedByEmail(users: seq<User>, plan: seq<seq<ActivityDraw>>, k: nat)
    requires ValidPlan(users, plan) && DistinctEmails(users) && k < |users|
    ensures OfUser(ActivitiesOf(users, plan), users[k].email) == ActivitiesFor(users[k], plan[k])
    decreases |users|, 1
  {
    if k < |users| - 1 {
      GroupedEarlier(users, plan, k);
    } else {
      GroupedLast(users, plan);
    }
  }

  lemma {:induction false} GroupedEarlier(users: seq<User>, plan: seq<seq<ActivityDraw>>, k: nat)
    requires ValidPlan(users, plan) && DistinctEmails(users) && k < |users| - 1
    ensures OfUser(ActivitiesOf(users, plan), users[k].email) == ActivitiesFor(users[k], plan[k])
    decreases |users|, 0
  {
    var n := |users| - 1;
    OfUserLast(users, plan, users[k].email);
    assert DistinctEmails(users[..n]) && users[n].email != users[k].email;
    GroupedByEmail(users[..n], plan[..n], k);
    assert users[..n][k] == users[k] && plan[..n][k] == plan[k];
  }

  lemma GroupedLast(users: seq<User>, plan: seq<seq<ActivityDraw>>)
    requires ValidPlan(users, plan) && DistinctEmails(users) && |users| > 0
    ensures var n := |users| - 1;
            OfUser(ActivitiesOf(users, plan), users[n].email) == ActivitiesFor(users[n], plan[n])
  {
    var n := |users| - 1;
    var e := users[n].email;
    OfUserLast(users, plan, e);
    assert forall u :: u in users[..n] ==> u.email != e by {
      forall u | u in users[..n]
        ensures u.email != e
      {
        var i :| 0 <= i < n && users[..n][i] == u;
      }
    }
    NoneBefore(users[..n], plan[..n], e);
  }

  /** An e-mail none of the users has picks no activity. */
  lemma {:induction false} NoneBefore(users: seq<User>, plan: seq<seq<ActivityDraw>>, email: string)
    requires ValidPlan(users, plan) && forall u :: u in users ==> u.email != email
    ensures OfUser(ActivitiesOf(users, plan), email) == []
  {
    if users != [] {
      var n := |users| - 1;
      OfUserConcat(ActivitiesOf(users[..n], plan[..n]), ActivitiesFor(users[n], plan[n]), email);
      OfUserBlock(users[n], plan[n], email);
      assert users[n] in users;
      NoneBefore(users[..n], plan[..n], email);
    }
  }

  lemma {:induction false} SumsOfBlock(u: User, ds: seq<ActivityDraw>)
    requires ValidDraws(ds)
    ensures SumCalories(ActivitiesFor(u, ds)) == DrawnCalories(ds)
    ensures SumDuration(ActivitiesFor(u, ds)) == DrawnDuration(ds)
    ensures 100 * |ds| <= DrawnCalories(ds) <= 800 * |ds|
    ensures 20 * |ds| <= DrawnDuration(ds) <= 120 * |ds|
  {
    if ds != [] {
      var n := |ds| - 1;
      SumsOfBlock(u, ds[..n]);
      assert ActivitiesFor(u, ds)[..n] == ActivitiesFor(u, ds[..n]);
      assert ValidDraw(ds[n]);
    }
  }

  /** The entry of user `k` copies the user's fields and totals exactly that user's
      draws: 5 to 15 activities, 100 to 800 calories and 20 to 120 minutes each. */
  lemma EntryTotals(users: seq<User>, plan: seq<seq<ActivityDraw>>, k: nat)
    requires ValidPlan(users, plan) && DistinctEmails(users) && k < |users|
    ensures var e := EntryFor(users[k], ActivitiesOf(users, plan));
            e.userEmail == users[k].email && e.userName == users[k].name && e.team == users[k].team &&
            e.totalActivities == |plan[k]| && 5 <= e.totalActivities <= 15 &&
            e.totalCalories == DrawnCalories(plan[k]) &&
            100 * e.totalActivities <= e.totalCalories <= 800 * e.totalActivities &&
            e.totalDuration == DrawnDuration(plan[k]) &&
            20 * e.totalActivities <= e.totalDuration <= 120 * e.totalActivities &&
            e.rank == 0
  {
    GroupedByEmail(users, plan, k);
    SumsOfBlock(users[k], plan[k]);
  }

  lemma {:induction false} SumOfCounts(board: seq<Entry>, plan: seq<seq<ActivityDraw>>)
    requires |board| == |plan| && forall i :: 0 <= i < |plan| ==> board[i].totalActivities == |plan[i]|
    ensures SumActivities(board) == PlannedCount(plan)
  {
    if board != [] {
      var n := |board| - 1;
      SumOfCounts(board[..n], plan[..n]);
    }
  }

  /** With distinct e-mails every activity is counted once: the `total_activities` of
      the leaderboard add up to the number of activities generated. */
  lemma TotalActivitiesSum(users: seq<User>, plan: seq<seq<ActivityDraw>>, board: seq<Entry>)
    requires ValidPlan(users, plan) && DistinctEmails(users)
    requires |board| == |users| && forall i :: 0 <= i < |users| ==> board[i] == EntryFor(users[i], ActivitiesOf(users, plan))
    ensures SumActivities(board) == |ActivitiesOf(users, plan)|
  {
    forall i | 0 <= i < |users|
      ensures board[i].totalActivities == |plan[i]|
    {
      GroupedByEmail(users, plan, i);
    }
    SumOfCounts(board, plan);
    ActivitiesCount(users, plan);
  }
}
