# OctoFit Tracker: the view state machine, the display rules and the seed command

OctoFit Tracker is a fitness app for teams of superheroes. It has a React front end with five
collection views: Users, Teams, Activities, Workouts and Leaderboard. A Django/MongoDB back end
serves the data, and a management command (`populate_db`) seeds it. This project models three
parts of it in Dafny and proves what they promise.

1. **The fetch-and-normalise state machine** that every view runs once when it mounts.
   - Each view keeps `items`, `loading` and `error`.
   - A rejected fetch, a non-ok status (message `HTTP error! status: N`) or an undecodable body
     goes to the catch handler.
   - An ok body is normalised with `data.results || data` and an array check. A `null` body
     throws when `results` is read.
   - The Teams view also repairs each record's `members` field: a string goes through
     `JSON.parse`, and whatever is not an array becomes `[]`.
   - The render takes the spinner first, then the error panel, then the empty state or the rows.
   - `Views.View` is a class with those three fields. `FetchChain.ChainResult` is the chain as a
     function, and the class's methods are proved against it.
2. **The display rules** of the views:
   - the Teams theme and the member display name;
   - the Workouts difficulty badge;
   - the Leaderboard rank badge, the star and the `||` defaults;
   - the Users placeholders.
3. **`Command.handle` of the seed command**. The values `random` returns are inputs, constrained to
   the ranges the command draws from.
   - It generates 5 to 15 activities per user.
   - It aggregates one leaderboard entry per user.
   - It sorts the leaderboard by calories, descending and stably. The command calls Python's
     built-in `list.sort`; the model sorts by an in-place insertion sort on an array, and its
     proved contract (`SeedRanking.SortByCaloriesDesc`: sorted descending, and a stable
     rearrangement of the old contents) is what `list.sort` guarantees.
   - It writes ranks 1..n.
   - It generates one workout per catalogue exercise.

`SeedDisplay` connects the two sides. It proves what the views show for the documents the seed
command writes.

Modules: `Wrappers`, `Text`, `JsValues`, `Normalize`, `FetchChain`, `Views`, `TeamsView`,
`WorkoutsView`, `LeaderboardView`, `UsersView`, `SeedData`, `SeedActivities`, `SeedLeaderboard`,
`SeedRanking`, `SeedWorkouts`, `Populate`, `SeedDisplay`.

The two discrepancies found between the front end and the serializers are recorded under
"## Findings".

## Model

| member | source | states |
|---|---|---|
| JsValues.Or | octofit-tracker/frontend/src/components/Teams.js:22 | `a \|\| b` is `a` exactly when `a` is truthy (JavaScript `ToBoolean`, with `undefined` falsy), otherwise `b` |
| JsValues.GetProp | octofit-tracker/frontend/src/components/Teams.js:25 | reading a property throws exactly on `null`, with the V8 message naming the key; on an object it is the field or `undefined`; on any other value it is `undefined` |
| JsValues.Spread | octofit-tracker/frontend/src/components/Teams.js:34 | `{...v}`: the fields of an object, the index-keyed elements of an array or string, nothing otherwise; characterised by IndexKeyedKeys and by the ensures of Normalize.RepairTeam |
| JsValues.IndexKeyedKeys | octofit-tracker/frontend/src/components/Teams.js:34 | spreading an array or string copies each element under the decimal text of its index, and nothing else |
| Normalize.Candidate | octofit-tracker/frontend/src/components/Teams.js:22 | `data.results \|\| data` fails exactly on a `null` body; otherwise it is `data.results` when that field is present and truthy, and `data` itself when it is not |
| Normalize.AsArray | octofit-tracker/frontend/src/components/Users.js:23 | `Array.isArray(c) ? c : []`; characterised by the ensures of Normalize.NormalizePlain |
| Normalize.NormalizePlain | octofit-tracker/frontend/src/components/Users.js:22-23 | a bare array is kept unchanged, an envelope gives its `results`, a `null` body throws, and every other body gives `[]` |
| Normalize.RepairMembers | octofit-tracker/frontend/src/components/Teams.js:25-34 | the repaired `members` is always an array: an array is kept, a string becomes what `JSON.parse` returns when that is an array, and every other case becomes `[]` |
| Normalize.RepairTeam | octofit-tracker/frontend/src/components/Teams.js:23-34 | the repair throws exactly on a `null` record; an object keeps every other field unchanged, gains or replaces only `members`, and is returned unchanged when `members` is already an array; an array or string record is spread into its index keys plus an empty `members`, and a boolean or number record into `members` alone |
| Normalize.RepairAll | octofit-tracker/frontend/src/components/Teams.js:23-35 | the `.map` fails exactly when some record is `null`; otherwise it keeps the number and order of the records, each repaired on its own |
| Normalize.NormalizeTeams | octofit-tracker/frontend/src/components/Teams.js:22-35 | the Teams normalisation; characterised by NormalizeTeamsIsPlainThenRepair |
| Normalize.NormalizeTeamsIsPlainThenRepair | octofit-tracker/frontend/src/components/Teams.js:22-35 | the Teams normalisation is the plain one followed by the repair; it keeps the length of the plain result, and every record ends with an array `members` |
| Normalize.RepairAllIdempotent | octofit-tracker/frontend/src/components/Teams.js:26-34 | repairing an already repaired list changes nothing |
| FetchChain.IsOk | octofit-tracker/frontend/src/components/Teams.js:14 | `response.ok`, a status from 200 to 299; its use is stated by ChainResult and NonOkFails |
| FetchChain.HttpErrorMessage | octofit-tracker/frontend/src/components/Teams.js:15 | the message of the thrown `Error`; characterised by HttpErrorMessageNamesStatus and HttpErrorMessageInjective |
| FetchChain.HttpErrorMessageNamesStatus | octofit-tracker/frontend/src/components/Workouts.js:14-15 | the non-ok message contains `status: N`, starts with `HTTP error! status: `, and the status can be read back from its digits |
| FetchChain.HttpErrorMessageInjective | octofit-tracker/frontend/src/components/Leaderboard.js:14-15 | distinct statuses give distinct messages |
| FetchChain.ChainResult | octofit-tracker/frontend/src/components/Teams.js:12-44 | the chain succeeds only for an ok status with a decodable body, delivering that view's normalisation; a network failure, a non-ok status and an undecodable body each fail with their own message |
| FetchChain.NonOkFails | octofit-tracker/frontend/src/components/Activities.js:14-15 | a non-ok response never reaches the success handler, whatever its body, and its message carries the status |
| FetchChain.BareArrayDelivered | octofit-tracker/frontend/src/components/Workouts.js:22-23 | an ok bare-array body is delivered exactly, including the empty array, to every view but Teams |
| FetchChain.NullBodyFails | octofit-tracker/frontend/src/components/Activities.js:22 | an ok `null` body ends in the catch handler with the message of reading `results` of `null` |
| FetchChain.EnvelopeSameAsArray | octofit-tracker/frontend/src/components/Leaderboard.js:22-23 | the envelope `{results: [...]}` and the bare array give the same result, in every view |
| Views.View.constructor | octofit-tracker/frontend/src/components/Teams.js:4-6 | a mounted view has no items, is loading and has no error |
| Views.View.Render | octofit-tracker/frontend/src/components/Workouts.js:45-58 | `loading` wins over everything, then a non-empty error, then the empty state, then the rows |
| Views.View.OnFailure | octofit-tracker/frontend/src/components/Activities.js:26-29 | the catch handler stores the message, clears `loading` and leaves the list as it was |
| Views.View.OnOk | octofit-tracker/frontend/src/components/Teams.js:19-39 | a successful normalisation is stored, `loading` is cleared and `error` is unchanged; a throw inside it stores its message and leaves the list as it was |
| Views.View.Settle | octofit-tracker/frontend/src/components/Users.js:12-30 | after the chain settles `loading` is false; on success the items are the chain's result and `error` is unchanged; on failure the items are unchanged and `error` is the chain's message |
| Views.SettledScreen | octofit-tracker/frontend/src/components/Workouts.js:58-91 | the screen once loading is false: the error panel for a non-empty message, else the empty state or the rows; characterised by Activate, NonOkShowsStatus, EmptyArrayShowsEmptyState and NonArrayShowsEmptyState |
| Views.Activate | octofit-tracker/frontend/src/components/Activities.js:4-46 | a mounted view first shows the spinner, then exactly the screen the chain's result selects, which is never the spinner |
| Views.NonOkShowsStatus | octofit-tracker/frontend/src/components/Users.js:14-15 | a non-ok response shows the error panel with the status message, never a list |
| Views.NonOkPanelsNameTheirStatus | octofit-tracker/frontend/src/components/Users.js:14-15 | non-ok responses with different statuses end on different error panels |
| Views.EmptyArrayShowsEmptyState | octofit-tracker/frontend/src/components/Activities.js:23-24 | an ok empty array shows the empty state, not an error |
| Views.NonArrayShowsEmptyState | octofit-tracker/frontend/src/components/Workouts.js:23-24 | a body that is neither an array, nor an envelope, nor `null` shows the empty state, not an error |
| Text.Lower | octofit-tracker/frontend/src/components/Teams.js:48 | lower-casing keeps the length and maps every character on its own |
| Text.NatToStringRoundTrip | octofit-tracker/frontend/src/components/Teams.js:15 | the decimal text of a status reads back as that status |
| Text.Split | octofit-tracker/frontend/src/components/Teams.js:253 | `split` gives at least one piece, and no piece holds the separator |
| Text.JoinSplit | octofit-tracker/frontend/src/components/Teams.js:253 | joining the pieces of a split with the same separator gives back the string |
| Text.SplitHead | octofit-tracker/frontend/src/components/Teams.js:253 | the first piece of `split('@')` is the prefix before the first '@', or the whole string when there is none |
| Text.ReplaceAll | octofit-tracker/frontend/src/components/Teams.js:253 | `replace(/\./g, ' ')` replaces every '.' and changes nothing else |
| TeamsView.GetTeamTheme | octofit-tracker/frontend/src/components/Teams.js:47-79 | Marvel exactly when the lower-cased name contains "marvel" (even if it also contains "dc"); DC exactly when it contains "dc" but not "marvel"; the default theme otherwise |
| TeamsView.ThemeIgnoresCase | octofit-tracker/frontend/src/components/Teams.js:48 | the theme depends on the name only up to case |
| TeamsView.TeamMarvelTheme | octofit-tracker/frontend/src/components/Teams.js:49 | example: "Team Marvel" gets the Marvel theme |
| TeamsView.TeamDcTheme | octofit-tracker/frontend/src/components/Teams.js:59 | example: "Team DC" gets the DC theme |
| TeamsView.CapitalizeFrom | octofit-tracker/frontend/src/components/Teams.js:253-255 | exactly the characters that start a space-separated word are upper-cased |
| TeamsView.SplitCapitalizeJoin | octofit-tracker/frontend/src/components/Teams.js:253-255 | splitting at spaces, capitalising each word and joining with spaces upper-cases the first character of every word and leaves every other character as it was |
| TeamsView.MemberDisplayName | octofit-tracker/frontend/src/components/Teams.js:253-255 | the member chip text; characterised by MemberDisplayNameChars and MemberDisplayNameExample |
| TeamsView.MemberDisplayNameChars | octofit-tracker/frontend/src/components/Teams.js:253-255 | the display name is as long as the text before the first '@'; position i is a space where that text has '.' or ' ', is upper-cased where it starts a word, and is unchanged otherwise |
| TeamsView.MemberDisplayNameExample | octofit-tracker/frontend/src/components/Teams.js:253-255 | the seeded address `iron.man@marvel.com` is shown as "Iron Man" |
| WorkoutsView.DifficultyBadge | octofit-tracker/frontend/src/components/Workouts.js:33-43 | for each colour, an if-and-only-if on the lower-cased difficulty: success for easy/beginner, warning for medium/intermediate, danger for hard/advanced, and secondary for a falsy or unknown difficulty; a truthy non-string throws |
| WorkoutsView.DifficultyIgnoresCase | octofit-tracker/frontend/src/components/Workouts.js:34 | the badge does not depend on the case of the difficulty |
| WorkoutsView.MissingDifficultyIsSecondary | octofit-tracker/frontend/src/components/Workouts.js:34-42 | an undefined, `null` or empty difficulty gets the secondary badge |
| WorkoutsView.BeginnerBadge | octofit-tracker/frontend/src/components/Workouts.js:35-36 | example: "Beginner" gets the success badge |
| WorkoutsView.IntermediateBadge | octofit-tracker/frontend/src/components/Workouts.js:37-38 | example: "Intermediate" gets the warning badge |
| WorkoutsView.AdvancedBadge | octofit-tracker/frontend/src/components/Workouts.js:39-40 | example: "Advanced" gets the danger badge |
| LeaderboardView.RankBadgeClass | octofit-tracker/frontend/src/components/Leaderboard.js:33-38 | each podium class is given exactly to the number 1, 2 or 3 (strict equality), and the default class to every other value |
| LeaderboardView.StarShown | octofit-tracker/frontend/src/components/Leaderboard.js:113 | for a number the star is shown exactly when it is at most 3; `undefined` compares as NaN and gets no star; `null` and booleans compare as 0 or 1 and get one |
| LeaderboardView.StarIffPodium | octofit-tracker/frontend/src/components/Leaderboard.js:113 | for a rank of at least 1, the star is shown exactly when the badge has a podium class |
| LeaderboardView.ZeroRankHasStarOnly | octofit-tracker/frontend/src/components/Leaderboard.js:113 | rank 0 gets a star but no podium class |
| LeaderboardView.TeamLabel | octofit-tracker/frontend/src/components/Leaderboard.js:119 | a truthy team is shown as it is, a falsy one as 'N/A', so the label is never falsy |
| LeaderboardView.ActivitiesLabel | octofit-tracker/frontend/src/components/Leaderboard.js:125 | a truthy activity count is shown as it is, a falsy one as 0 |
| UsersView.PlaceholderCell | octofit-tracker/frontend/src/components/Users.js:105 | the placeholder is shown exactly for a falsy value; otherwise the value is shown |
| UsersView.FieldCell | octofit-tracker/frontend/src/components/Users.js:105-108 | the team (or role) cell shows '-' exactly when the user has no truthy `team` (or `role`), and otherwise shows that value |
| UsersView.NonEmptyFieldsShown | octofit-tracker/frontend/src/components/Users.js:105-108 | a non-empty team and role string are both shown, never the placeholder |
| SeedData.SeedEmailsDistinct | octofit-tracker/backend/octofit_tracker/management/commands/populate_db.py:26-46 | the twelve seeded users satisfy the unique e-mail index |
| SeedData.WorkoutCategoriesDistinct | octofit-tracker/backend/octofit_tracker/management/commands/populate_db.py:138-143 | the catalogue has four categories with distinct keys |
| SeedData.SeedTeamsListTheirUsers | octofit-tracker/backend/octofit_tracker/management/commands/populate_db.py:30-81 | each seeded team lists, in order, the e-mails of exactly the six users whose team it is |
| SeedActivities.MakeActivity | octofit-tracker/backend/octofit_tracker/management/commands/populate_db.py:91-102 | one activity document; its fields are stated by ActivitiesFor and ActivitiesInRange |
| SeedActivities.ActivitiesFor | octofit-tracker/backend/octofit_tracker/management/commands/populate_db.py:91-103 | a user's block has one activity per draw, in order, each copying the user's e-mail, name and team |
| SeedActivities.ActivitiesOf | octofit-tracker/backend/octofit_tracker/management/commands/populate_db.py:88-103 | the whole `activities_data` list; characterised by GenerateActivities, ActivitiesCount and ActivitiesInRange |
| SeedActivities.AppendUser | octofit-tracker/backend/octofit_tracker/management/commands/populate_db.py:91-103 | the inner loop appends exactly the user's block, one activity per draw, to what was there |
| SeedActivities.GenerateActivities | octofit-tracker/backend/octofit_tracker/management/commands/populate_db.py:88-103 | the nested loops leave `activities_data` equal to the users' blocks in user order |
| SeedActivities.ActivitiesCount | octofit-tracker/backend/octofit_tracker/management/commands/populate_db.py:90-91 | there are as many activities as drawn, between 5 and 15 per user |
| SeedActivities.ActivitiesInRange | octofit-tracker/backend/octofit_tracker/management/commands/populate_db.py:91-98 | every activity has a known type, 20 to 120 minutes and 100 to 800 calories, and copies the name and team of a user with its e-mail |
| SeedLeaderboard.OfUser | octofit-tracker/backend/octofit_tracker/management/commands/populate_db.py:111 | the filter keeps exactly the activities with the given e-mail |
| SeedLeaderboard.BuildLeaderboard | octofit-tracker/backend/octofit_tracker/management/commands/populate_db.py:109-127 | there is exactly one entry per user, in user order, each aggregating that user's activities |
| SeedLeaderboard.OfUserConcat | octofit-tracker/backend/octofit_tracker/management/commands/populate_db.py:111 | filtering distributes over concatenation |
| SeedLeaderboard.OfUserBlock | octofit-tracker/backend/octofit_tracker/management/commands/populate_db.py:93-111 | a user's block holds only that user's e-mail |
| SeedLeaderboard.GroupedByEmail | octofit-tracker/backend/octofit_tracker/management/commands/populate_db.py:90-111 | with distinct e-mails, the activities found for a user are exactly the block generated for them, in order |
| SeedLeaderboard.NoneBefore | octofit-tracker/backend/octofit_tracker/management/commands/populate_db.py:111 | an e-mail no user has picks no activity |
| SeedLeaderboard.SumsOfBlock | octofit-tracker/backend/octofit_tracker/management/commands/populate_db.py:112-114 | a block's calorie and minute sums are those of its draws, bounded by 100..800 and 20..120 per activity |
| SeedLeaderboard.EntryFor | octofit-tracker/backend/octofit_tracker/management/commands/populate_db.py:110-126 | one leaderboard entry before ranking; characterised by EntryTotals |
| SeedLeaderboard.EntryTotals | octofit-tracker/backend/octofit_tracker/management/commands/populate_db.py:111-124 | a user's entry copies the user's fields; it counts exactly the user's 5 to 15 activities; it sums their calories and minutes within the per-activity bounds; its rank is 0 |
| SeedLeaderboard.SumOfCounts | octofit-tracker/backend/octofit_tracker/management/commands/populate_db.py:120 | counts equal to the draws add up to the planned total |
| SeedLeaderboard.TotalActivitiesSum | octofit-tracker/backend/octofit_tracker/management/commands/populate_db.py:90-120 | with distinct e-mails the `total_activities` add up to the number of generated activities |
| SeedRanking.Swapped | octofit-tracker/backend/octofit_tracker/management/commands/populate_db.py:130 | an exchange of neighbours changes only those two positions |
| SeedRanking.WithCaloriesConcat | octofit-tracker/backend/octofit_tracker/management/commands/populate_db.py:130 | the entries with a given calorie total distribute over concatenation |
| SeedRanking.SwapKeepsStable | octofit-tracker/backend/octofit_tracker/management/commands/populate_db.py:130 | exchanging neighbours with different calories keeps the multiset and the order of equal-calorie entries |
| SeedRanking.StablyRearrangedTrans | octofit-tracker/backend/octofit_tracker/management/commands/populate_db.py:130 | stable rearrangement composes |
| SeedRanking.InsertStep | octofit-tracker/backend/octofit_tracker/management/commands/populate_db.py:130 | moving the inserted entry one place left keeps the insertion invariant |
| SeedRanking.InsertEnd | octofit-tracker/backend/octofit_tracker/management/commands/populate_db.py:130 | when the inserted entry stops, the prefix one longer is sorted |
| SeedRanking.SwapWithLeft | octofit-tracker/backend/octofit_tracker/management/commands/populate_db.py:130 | one insertion step exchanges the entry with its left neighbour, which has fewer calories, and is a stable rearrangement |
| SeedRanking.SortByCaloriesDesc | octofit-tracker/backend/octofit_tracker/management/commands/populate_db.py:130 | the array ends non-increasing in `total_calories` and is a stable rearrangement of what it held: the same entries, with ties in their original order |
| SeedRanking.AssignRanks | octofit-tracker/backend/octofit_tracker/management/commands/populate_db.py:131-132 | entry i gets rank i + 1 and nothing else changes |
| SeedRanking.SumActivitiesRearranged | octofit-tracker/backend/octofit_tracker/management/commands/populate_db.py:120-130 | the sum of `total_activities` does not depend on the order of the entries |
| SeedRanking.SumActivitiesConcat | octofit-tracker/backend/octofit_tracker/management/commands/populate_db.py:120 | the sum over a concatenation is the sum of the sums |
| SeedRanking.SumActivitiesPointwise | octofit-tracker/backend/octofit_tracker/management/commands/populate_db.py:131-132 | writing ranks leaves the sum of `total_activities` unchanged |
| SeedWorkouts.Description | octofit-tracker/backend/octofit_tracker/management/commands/populate_db.py:151 | the description is "A challenging ", the lower-cased exercise, then " workout routine" |
| SeedWorkouts.MakeWorkout | octofit-tracker/backend/octofit_tracker/management/commands/populate_db.py:148-156 | one workout document; its fields are stated by CategoryWorkouts and WorkoutsInRange |
| SeedWorkouts.CategoryWorkouts | octofit-tracker/backend/octofit_tracker/management/commands/populate_db.py:147-158 | a category's block has one workout per exercise, in exercise order |
| SeedWorkouts.WorkoutsOf | octofit-tracker/backend/octofit_tracker/management/commands/populate_db.py:145-158 | the whole `workouts_data` list; characterised by GenerateWorkouts, OnePerExercise, WorkoutsCount and WorkoutsInRange |
| SeedWorkouts.AppendCategory | octofit-tracker/backend/octofit_tracker/management/commands/populate_db.py:147-158 | the inner loop appends exactly the category's block, one workout per exercise, to what was there |
| SeedWorkouts.GenerateWorkouts | octofit-tracker/backend/octofit_tracker/management/commands/populate_db.py:145-158 | the nested loops leave `workouts_data` equal to the categories' blocks in dictionary order |
| SeedWorkouts.InCategory | octofit-tracker/backend/octofit_tracker/management/commands/populate_db.py:150 | the filter keeps exactly the workouts of the given category |
| SeedWorkouts.InCategoryConcat | octofit-tracker/backend/octofit_tracker/management/commands/populate_db.py:146-158 | the category filter distributes over concatenation |
| SeedWorkouts.NoWorkoutsOutside | octofit-tracker/backend/octofit_tracker/management/commands/populate_db.py:146-150 | no workout has a category that is not a catalogue key |
| SeedWorkouts.OnePerExercise | octofit-tracker/backend/octofit_tracker/management/commands/populate_db.py:145-158 | with distinct keys, the workouts filed under a key are exactly one per exercise of that category, in order, named after it |
| SeedWorkouts.NamesOfCategory | octofit-tracker/backend/octofit_tracker/management/commands/populate_db.py:147-149 | a category's workouts carry its exercises' names in order |
| SeedWorkouts.WorkoutsCount | octofit-tracker/backend/octofit_tracker/management/commands/populate_db.py:145-158 | there is one workout per exercise of the catalogue |
| SeedWorkouts.WorkoutsInRange | octofit-tracker/backend/octofit_tracker/management/commands/populate_db.py:148-157 | every workout has a catalogue category and exercise, a listed difficulty and equipment, 30 to 90 minutes, 200 to 600 calories per hour and its description |
| SeedWorkouts.SeededWorkoutCount | octofit-tracker/backend/octofit_tracker/management/commands/populate_db.py:138-158 | the seeded catalogue gives eighteen workouts |
| Populate.Unranked | octofit-tracker/backend/octofit_tracker/management/commands/populate_db.py:124 | the rank written before ranking is 0 in every entry |
| Populate.UserOrderBoard | octofit-tracker/backend/octofit_tracker/management/commands/populate_db.py:109-127 | the board before sorting is one entry per user in user order |
| Populate.RankedIsSortedWithRanks | octofit-tracker/backend/octofit_tracker/management/commands/populate_db.py:129-132 | writing ranks into a sorted stable rearrangement keeps it sorted, and removing them gives the rearrangement back |
| Populate.Run | octofit-tracker/backend/octofit_tracker/management/commands/populate_db.py:88-158 | for any users and catalogue, the command gives: the generated activities; a leaderboard sorted by calories with ranks 1..n, which is a stable rearrangement of the per-user entries; counts adding up to the activities when e-mails are distinct; and one workout per exercise |
| Populate.Handle | octofit-tracker/backend/octofit_tracker/management/commands/populate_db.py:10-171 | on the command's own data, in addition: twelve entries whose counts add up to the number of activities, and eighteen workouts |
| SeedDisplay.EntryJson | octofit-tracker/backend/octofit_tracker/serializers.py:39-46 | a leaderboard document carries its rank, team and count under the names the view reads |
| SeedDisplay.UserJson | octofit-tracker/frontend/src/components/Users.js:105-108 | a user document carries its team and role under the names the view reads |
| SeedDisplay.RankedRows | octofit-tracker/frontend/src/components/Leaderboard.js:102-113 | on a board ranked 1..n, the first three rows get the three podium classes and a star; every later row gets the default class and no star |
| SeedDisplay.SeededEntryOwner | octofit-tracker/backend/octofit_tracker/management/commands/populate_db.py:110-132 | every seeded leaderboard entry is the entry of one of the seeded users |
| SeedDisplay.SeededLeaderboardLabels | octofit-tracker/frontend/src/components/Leaderboard.js:119-125 | every seeded row shows its own team (Team Marvel or Team DC, never 'N/A') and its count of 5 to 15 (never the default 0) |
| SeedDisplay.SeededUserCells | octofit-tracker/frontend/src/components/Users.js:105-108 | every seeded user row shows its team and role, never the placeholder |
| SeedDisplay.SeededWorkoutBadges | octofit-tracker/frontend/src/components/Workouts.js:33-43 | every seeded workout gets a coloured badge, never the secondary one |
| SeedDisplay.DifficultiesColoured | octofit-tracker/backend/octofit_tracker/management/commands/populate_db.py:153 | each of the three seeded difficulties gets a coloured badge |
| SeedDisplay.SeededTeamThemes | octofit-tracker/frontend/src/components/Teams.js:47-69 | the two seeded teams get the Marvel and the DC theme |
| SeedDisplay.WorkoutCardAsWritten | octofit-tracker/frontend/src/components/Workouts.js:116-125 | the card cells as written, reading `duration` and `calories_burned`; characterised by WorkoutCardBlankAsWritten |
| SeedDisplay.WorkoutCard | octofit-tracker/frontend/src/components/Workouts.js:116-125 | the card cells read from `duration_minutes` and `calories_per_hour`; characterised by WorkoutCardShowsSeed |
| SeedDisplay.WorkoutCardBlankAsWritten | octofit-tracker/frontend/src/components/Workouts.js:116-125 | as written, the duration and calorie cells of every seeded workout read `undefined` |
| SeedDisplay.WorkoutCardShowsSeed | octofit-tracker/backend/octofit_tracker/serializers.py:52-58 | read from the fields the serializer sends, the cells show the workout's minutes and calories per hour |
| SeedDisplay.ActivityRowAsWritten | octofit-tracker/frontend/src/components/Activities.js:102-104 | the row cells as written, reading `duration` and `calories`; characterised by ActivityRowBlankAsWritten |
| SeedDisplay.ActivityRow | octofit-tracker/frontend/src/components/Activities.js:102-104 | the row cells read from `duration_minutes` and `calories_burned`; characterised by ActivityRowShowsSeed |
| SeedDisplay.ActivityRowBlankAsWritten | octofit-tracker/frontend/src/components/Activities.js:102-104 | as written, the duration and calorie cells of every seeded activity read `undefined` |
| SeedDisplay.ActivityRowShowsSeed | octofit-tracker/backend/octofit_tracker/serializers.py:27-33 | read from the fields the serializer sends, the cells show the activity's minutes and calories |

## Left out

- The HTTP request is not modelled: `fetch` and the URL built from `process.env` are left out.
  A request is an input: a network failure, or a status and a body. `response.ok` is derived
  from the status (`FetchChain.IsOk`: 200 to 299).
- `console.log` and `console.error` are left out: they only write to the console.
- `JSON.parse` and `response.json()` are abstract. `JSON.parse` is an arbitrary total function
  returning a value or "throws". `response.json()` is an input that is either a decoded value or
  the message of a `SyntaxError`.
- The draws of `random.randint`, `random.choice` and `random.uniform` are inputs, with the
  ranges the command draws from as preconditions. `datetime.now` and `timedelta` are left out,
  and so are the `date`, `created_at` and `last_updated` fields and the constant `notes` field
  ("Great workout session!") of every activity.
- Floating-point values are left out: `distance_km`, `round(..., 2)`, `total_distance_km`, and
  `toFixed`, `toLocaleString` and the `Date` formatting in the views. Numbers are unbounded
  integers, which is exact for every number the seed command writes.
- The MongoDB calls are not modelled: `delete_many`, `create_index`, `insert_many` and
  `count_documents`. Neither is the `stdout` summary. The unique e-mail index is a property of
  the seeded users (`SeedData.SeedEmailsDistinct`).
- `toLowerCase`, `toUpperCase` and Python `lower` are modelled on ASCII letters only. Strings
  are sequences of characters, not UTF-16 code units, which matters only for the index keys of
  a spread string.
- LeaderboardView.StarShown: covers numbers, `null`, booleans and `undefined`. It does not
  model the `ToNumber` coercion of strings, arrays and objects, which the precondition
  excludes.
- WorkoutsView.DifficultyBadge: gives the badge's class. The badge's text, the difficulty
  itself, is not modelled.
- JSX markup, inline styles, hover handlers, theme colours, icons and the placeholder buttons
  are left out. The themes and the badge classes are enumerations; their `className` strings
  are not modelled.
- Routing in App.js is left out.
- A render that crashes is not modelled: a `null` item, a member that is not a string (Teams),
  a team without a `name` or with a non-string one (`getTeamTheme` then throws on
  `toLowerCase`; `TeamsView.GetTeamTheme` takes a string), or a `null` leaderboard or user
  row. The row functions require a non-`null` record.
- There is no stale-response cancellation: the effect has no cleanup, so a view settles once.
- The Django models, serializers, admin and tests are left out. Only the field names of
  serializers.py are used, to build the documents the views receive.

## Findings

| source | as written | input that shows it | evidently intended | confidence | as-written member | corrected member |
|---|---|---|---|---|---|---|
| octofit-tracker/frontend/src/components/Workouts.js:116-125 | the workout card reads `workout.duration` and `workout.calories_burned`; the serializer (serializers.py:57-58) sends `duration_minutes` and `calories_per_hour` | any seeded workout, e.g. Bench Press with 45 minutes and 300 calories per hour: both cells render empty ("` min`" and nothing) | read `duration_minutes` and `calories_per_hour` | not executed; follows from the field lists | SeedDisplay.WorkoutCardBlankAsWritten | SeedDisplay.WorkoutCardShowsSeed |
| octofit-tracker/frontend/src/components/Activities.js:102-104 | the activity row reads `activity.duration` and `activity.calories` (and `activity.user`, `activity.distance`); the serializer (serializers.py:32-33) sends `duration_minutes`, `calories_burned`, `user_name`/`user_email` and `distance_km` | any seeded activity, e.g. 60 minutes and 400 calories: the duration and calorie cells render empty | read `duration_minutes` and `calories_burned` | not executed; follows from the field lists | SeedDisplay.ActivityRowBlankAsWritten | SeedDisplay.ActivityRowShowsSeed |
