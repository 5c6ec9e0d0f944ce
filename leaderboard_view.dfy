/** The per-row display rules of the Leaderboard view (Leaderboard.js lines 33-38 and
    102-126): the rank badge's class, the star beside the top ranks, and the defaults
    shown for a missing team or activity count. */
module LeaderboardView {
  import opened Wrappers
  import opened JsValues

  const RankOneClass: string := "rank-badge rank-1"
  const RankTwoClass: string := "rank-badge rank-2"
  const RankThreeClass: string := "rank-badge rank-3"
  const OtherRankClass: string := "rank-badge bg-light text-dark"

  /** `getRankBadgeClass(entry.rank)`: `rank === 1`, `=== 2`, `=== 3` are strict
      comparisons, so only the numbers 1, 2 and 3 get a podium class. */
  function RankBadgeClass(rank: Option<Json>): (c: string)
    ensures c == RankOneClass <==> rank == Some(JNum(1))
    ensures c == RankTwoClass <==> rank == Some(JNum(2))
    ensures c == RankThreeClass <==> rank == Some(JNum(3))
    ensures c == OtherRankClass <==> !(rank in {Some(JNum(1)), Some(JNum(2)), Some(JNum(3))})
  {
    if rank == Some(JNum(1)) then RankOneClass
    else if rank == Some(JNum(2)) then RankTwoClass
    else if rank == Some(JNum(3)) then RankThreeClass
    else OtherRankClass
  }

  /** A rank `<=` compares with 3 through `ToNumber` for these kinds of value:
      `undefined` is `NaN`, `null` is 0, a boolean is 0 or 1. */
  predicate NumericallyCompared(rank: Option<Json>) {
    rank.None? || rank.value.JNull? || rank.value.JBool? || rank.value.JNum?
  }

  /** `entry.rank <= 3 && <star/>`: whether the star is shown. */
  function StarShown(rank: Option<Json>): (shown: bool)
    requires NumericallyCompared(rank)
    ensures rank.None? ==> !shown
    ensures rank.Some? && rank.value.JNum? ==> (shown <==> rank.value.n <= 3)
    ensures rank.Some? && (rank.value.JNull? || rank.value.JBool?) ==> shown
  {
    match rank
    case None => false
    case Some(JNum(n)) => n <= 3
    case Some(_) => true
  }

  /** For a rank of at least 1 (every rank the seed command assigns), the star is shown
      exactly when the badge has one of the three podium classes. */
  lemma StarIffPodium(n: int)
    requires n >= 1
    ensures StarShown(Some(JNum(n))) <==> RankBadgeClass(Some(JNum(n))) != OtherRankClass
  {
    if n <= 3 {
      assert n == 1 || n == 2 || n == 3;
    }
  }

  /** A rank of 0, the placeholder the seed command writes before ranking, gets a star
      but not a podium class. */
  lemma ZeroRankHasStarOnly()
    ensures StarShown(Some(JNum(0))) && RankBadgeClass(Some(JNum(0))) == OtherRankClass
  {
  }

  /** `entry.team || 'N/A'`. */
  function TeamLabel(team: Option<Json>): (t: Json)
    ensures Truthy(team) ==> Some(t) == team
    ensures !Truthy(team) ==> t == JStr("N/A")
    ensures Truthy(Some(t))
  {
    Or(team, JStr("N/A"))
  }

  /** `entry.total_activities || 0`. */
  function ActivitiesLabel(total: Option<Json>): (t: Json)
    ensures Truthy(total) ==> Some(t) == total
    ensures !Truthy(total) ==> t == JNum(0)
  {
    Or(total, JNum(0))
  }
}
