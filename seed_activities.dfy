/** Activity generation of the seed command (populate_db.py lines 87-103): for every
    user, in order, a random number (5 to 15) of activities is appended, each with a
    random type, duration (20 to 120 minutes) and calorie count (100 to 800). The
    random draws are inputs; the distance, the date and the constant notes are left out. */
module SeedActivities {
  import opened SeedData

  /** An activity document, without `distance_km`, `date` and `notes`. */
  datatype Activity = Activity(
    userEmail: string,
    userName: string,
    team: string,
    activityType: string,
    durationMinutes: int,
    caloriesBurned: int)

  /** The random values of one activity: `random.choice(activity_types)` as an index,
      then `randint(20, 120)` and `randint(100, 800)`. */
  datatype ActivityDraw = ActivityDraw(typeIndex: nat, durationMinutes: int, caloriesBurned: int)

  /** What `random` can return for one activity. */
  predicate ValidDraw(d: ActivityDraw) {
    d.typeIndex < |ActivityTypes| && 20 <= d.durationMinutes <= 120 && 100 <= d.caloriesBurned <= 800
  }

  /** Every draw of a list is one `random` can return. */
  predicate ValidDraws(ds: seq<ActivityDraw>) {
    forall j :: 0 <= j < |ds| ==> ValidDraw(ds[j])
  }

  /** The draws of one run: for each user, `randint(5, 15)` activities' worth. */
  predicate ValidPlan(users: seq<User>, plan: seq<seq<ActivityDraw>>) {
    |plan| == |users| && forall i :: 0 <= i < |plan| ==> 5 <= |plan[i]| <= 15 && ValidDraws(plan[i])
  }

  /** The activity dictionary built for user `u` from draw `d`. */
  function MakeActivity(u: User, d: ActivityDraw): Activity
    requires ValidDraw(d)
  {
    Activity(u.email, u.name, u.team, ActivityTypes[d.typeIndex], d.durationMinutes, d.caloriesBurned)
  }

  /** The activities of one user, in the order they are appended. */
  function ActivitiesFor(u: User, ds: seq<ActivityDraw>): (r: seq<Activity>)
    requires ValidDraws(ds)
    ensures |r| == |ds|
    ensures forall j :: 0 <= j < |ds| ==> r[j] == MakeActivity(u, ds[j])
  {
    if ds == [] then [] else ActivitiesFor(u, ds[..|ds| - 1]) + [MakeActivity(u, ds[|ds| - 1])]
  }

  /** `activities_data` after the loops over `users`: the users' activities, one block
      per user, in user order. */
  function ActivitiesOf(users: seq<User>, plan: seq<seq<ActivityDraw>>): seq<Activity>
    requires ValidPlan(users, plan)
  {
    if users == [] then []
    else
      var n := |users| - 1;
      ActivitiesOf(users[..n], plan[..n]) + ActivitiesFor(users[n], plan[n])
  }

  /** The number of activities a plan asks for. */
  function PlannedCount(plan: seq<seq<ActivityDraw>>): nat {
    if plan == [] then 0 else PlannedCount(plan[..|plan| - 1]) + |plan[|plan| - 1]|
  }

  /** The plan up to user `i + 1` is the plan up to `i` and user `i`'s block. */
  lemma ActivitiesOfPrefix(users: seq<User>, plan: seq<seq<ActivityDraw>>, i: nat)
    requires ValidPlan(users, plan) && i < |users|
    ensures ValidPlan(users[..i], plan[..i]) && ValidPlan(users[..i + 1], plan[..i + 1])
    ensures ActivitiesOf(users[..i + 1], plan[..i + 1]) ==
              ActivitiesOf(users[..i], plan[..i]) + ActivitiesFor(users[i], plan[i])
  {
    assert users[..i + 1][..i] == users[..i] && plan[..i + 1][..i] == plan[..i];
  }

  /** A user's block up to draw `j + 1` is the block up to `j` and activity `j`. */
  lemma ActivitiesForPrefix(u: User, ds: seq<ActivityDraw>, j: nat)
    requires ValidDraws(ds) && j < |ds|
    ensures ActivitiesFor(u, ds[..j + 1]) == ActivitiesFor(u, ds[..j]) + [MakeActivity(u, ds[j])]
  {
    assert ds[..j + 1][..j] == ds[..j];
  }

  /** The inner loop of lines 91-103: one user's activities appended to `acts`. */
  method AppendUser(acts: seq<Activity>, u: User, ds: seq<ActivityDraw>) returns (r: seq<Activity>)
    requires ValidDraws(ds)
    ensures r == acts + ActivitiesFor(u, ds)
  {
    r := acts;
    var j := 0;
    while j < |ds|
      invariant 0 <= j <= |ds|
      invariant r == acts + ActivitiesFor(u, ds[..j])
    {
      ActivitiesForPrefix(u, ds, j);
      r := r + [MakeActivity(u, ds[j])];
      j := j + 1;
    }
    assert ds[..j] == ds;
  }

  /** The nested loops of lines 90-103, appending to `activities_data`. */
  method GenerateActivities(users: seq<User>, plan: seq<seq<ActivityDraw>>) returns (acts: seq<Activity>)
    requires ValidPlan(users, plan)
    ensures acts == ActivitiesOf(users, plan)
  {
    acts := [];
    var i := 0;
    assert ValidPlan(users[..0], plan[..0]);
    while i < |users|
      invariant 0 <= i <= |users|
      invariant ValidPlan(users[..i], plan[..i])
      invariant acts == ActivitiesOf(users[..i], plan[..i])
    {
      ActivitiesOfPrefix(users, plan, i);
      acts := AppendUser(acts, users[i], plan[i]);
      i := i + 1;
    }
    assert users[..i] == users && plan[..i] == plan;
  }

  /** There are as many activities as the plan asks for: between 5 and 15 per user. */
  lemma {:induction false} ActivitiesCount(users: seq<User>, plan: seq<seq<ActivityDraw>>)
    requires ValidPlan(users, plan)
    ensures |ActivitiesOf(users, plan)| == PlannedCount(plan)
    ensures 5 * |users| <= |ActivitiesOf(users, plan)| <= 15 * |users|
  {
    if users != [] {
      var n := |users| - 1;
      ActivitiesCount(users[..n], plan[..n]);
    }
  }

  /** Every activity of a user's block has a known type, values within the drawn ranges,
      and that user's e-mail, name and team. */
  lemma BlockInRange(u: User, ds: seq<ActivityDraw>)
    requires ValidDraws(ds)
    ensures forall a :: a in ActivitiesFor(u, ds) ==>
              a.activityType in ActivityTypes &&
              20 <= a.durationMinutes <= 120 && 100 <= a.caloriesBurned <= 800 &&
              a.userEmail == u.email && a.userName == u.name && a.team == u.team
  {
    forall a | a in ActivitiesFor(u, ds)
      ensures a.activityType in ActivityTypes
      ensures 20 <= a.durationMinutes <= 120 && 100 <= a.caloriesBurned <= 800
      ensures a.userEmail == u.email && a.userName == u.name && a.team == u.team
    {
      var j :| 0 <= j < |ds| && a == ActivitiesFor(u, ds)[j];
      assert ValidDraw(ds[j]);
    }
  }

  /** Every generated activity belongs to one of the users, copies that user's name and
      team, and has a known type and a duration and calorie count within the drawn ranges. */
  lemma {:induction false} ActivitiesInRange(users: seq<User>, plan: seq<seq<ActivityDraw>>)
    requires ValidPlan(users, plan)
    ensures forall a :: a in ActivitiesOf(users, plan) ==>
              a.activityType in ActivityTypes &&
              20 <= a.durationMinutes <= 120 && 100 <= a.caloriesBurned <= 800 &&
              exists u :: u in users && a.userEmail == u.email && a.userName == u.name && a.team == u.team
  {
    if users != [] {
      var n := |users| - 1;
      assert ValidPlan(users[..n], plan[..n]);
      ActivitiesInRange(users[..n], plan[..n]);
      BlockInRange(users[n], plan[n]);
      assert users[n] in users;
      forall a | a in ActivitiesOf(users, plan)
        ensures a.activityType in ActivityTypes
        ensures 20 <= a.durationMinutes <= 120 && 100 <= a.caloriesBurned <= 800
        ensures exists u :: u in users && a.userEmail == u.email && a.userName == u.name && a.team == u.team
      {
        if a in ActivitiesOf(users[..n], plan[..n]) {
          var u :| u in users[..n] && a.userEmail == u.email && a.userName == u.name && a.team == u.team;
          assert u in users;
        }
      }
    }
  }
}
