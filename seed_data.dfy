/** The constant data of the seed command (populate_db.py lines 30-46, 54-81, 87 and
    138-155): twelve users in two teams, the two team records, the activity types, and
    the workout catalogue with its difficulty and equipment choices. */
module SeedData {

  /** A user document (`name`, `email`, `team`, `role`). */
  datatype User = User(name: string, email: string, team: string, role: string)

  /** A team document; `created_at` is a clock reading and is left out. */
  datatype TeamRecord = TeamRecord(name: string, description: string, members: seq<string>)

  const SeedUsers: seq<User> := [
    User("Tony Stark", "iron.man@marvel.com", "Team Marvel", "Strength Training"),
    User("Steve Rogers", "captain.america@marvel.com", "Team Marvel", "Cardio"),
    User("Natasha Romanoff", "black.widow@marvel.com", "Team Marvel", "Flexibility"),
    User("Bruce Banner", "hulk@marvel.com", "Team Marvel", "Strength Training"),
    User("Thor Odinson", "thor@marvel.com", "Team Marvel", "Strength Training"),
    User("Peter Parker", "spider.man@marvel.com", "Team Marvel", "Cardio"),
    User("Bruce Wayne", "batman@dc.com", "Team DC", "Strength Training"),
    User("Clark Kent", "superman@dc.com", "Team DC", "Strength Training"),
    User("Diana Prince", "wonder.woman@dc.com", "Team DC", "Strength Training"),
    User("Barry Allen", "flash@dc.com", "Team DC", "Cardio"),
    User("Arthur Curry", "aquaman@dc.com", "Team DC", "Swimming"),
    User("Hal Jordan", "green.lantern@dc.com", "Team DC", "Cardio")
  ]

  const SeedTeams: seq<TeamRecord> := [
    TeamRecord("Team Marvel", "Earth's Mightiest Heroes",
               ["iron.man@marvel.com", "captain.america@marvel.com", "black.widow@marvel.com",
                "hulk@marvel.com", "thor@marvel.com", "spider.man@marvel.com"]),
    TeamRecord("Team DC", "Justice League",
               ["batman@dc.com", "superman@dc.com", "wonder.woman@dc.com",
                "flash@dc.com", "aquaman@dc.com", "green.lantern@dc.com"])
  ]

  const ActivityTypes: seq<string> := ["Running", "Cycling", "Swimming", "Weightlifting", "Yoga", "Boxing", "CrossFit"]

  /** The `workout_categories` dictionary, as its items in insertion order. */
  const WorkoutCategories: seq<(string, seq<string>)> := [
    ("Strength Training", ["Bench Press", "Squats", "Deadlifts", "Pull-ups", "Dumbbell Rows"]),
    ("Cardio", ["Interval Sprints", "Long Distance Run", "Cycling", "Jump Rope", "Burpees"]),
    ("Flexibility", ["Yoga Flow", "Stretching Routine", "Pilates", "Foam Rolling"]),
    ("Swimming", ["Freestyle Laps", "Butterfly Stroke", "Backstroke", "Water Aerobics"])
  ]

  const WorkoutDifficulties: seq<string> := ["Beginner", "Intermediate", "Advanced"]

  const EquipmentOptions: seq<string> := ["None", "Dumbbells", "Barbell", "Resistance Bands", "Yoga Mat"]

  /** No two users share an e-mail address (the unique index of line 26 demands it). */
  predicate DistinctEmails(users: seq<User>) {
    forall i, j :: 0 <= i < j < |users| ==> users[i].email != users[j].email
  }

  /** Dictionary keys are distinct. */
  predicate DistinctKeys(cats: seq<(string, seq<string>)>) {
    forall i, j :: 0 <= i < j < |cats| ==> cats[i].0 != cats[j].0
  }

  /** The seeded users satisfy the unique e-mail index. */
  lemma SeedEmailsDistinct()
    ensures |SeedUsers| == 12
    ensures DistinctEmails(SeedUsers)
  {
  }

  /** The workout catalogue is a dictionary: its keys are distinct. */
  lemma WorkoutCategoriesDistinct()
    ensures |WorkoutCategories| == 4
    ensures DistinctKeys(WorkoutCategories)
  {
  }

  /** Each seeded team lists, in order, the e-mails of the users whose `team` is its name. */
  lemma SeedTeamsListTheirUsers()
    ensures |SeedTeams| == 2
    ensures SeedTeams[0].members == seq(6, i requires 0 <= i < 6 => SeedUsers[i].email)
    ensures SeedTeams[1].members == seq(6, i requires 0 <= i < 6 => SeedUsers[i + 6].email)
    ensures forall i :: 0 <= i < 6 ==> SeedUsers[i].team == SeedTeams[0].name
    ensures forall i :: 6 <= i < 12 ==> SeedUsers[i].team == SeedTeams[1].name
  {
  }
}
