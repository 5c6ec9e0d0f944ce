/** Sorting and ranking the leaderboard in place (populate_db.py lines 129-132):
    `leaderboard_data.sort(key=total_calories, reverse=True)` is a stable sort, so
    entries with equal calories keep their user order; then `enumerate(..., 1)` writes
    ranks 1, 2, ... into the entries. */
module SeedRanking {
  import opened SeedLeaderboard

  /** `total_calories` never increases along the list. */
  predicate SortedByCaloriesDesc(s: seq<Entry>) {
    forall i, j :: 0 <= i < j < |s| ==> s[i].totalCalories >= s[j].totalCalories
  }

  /** The entries with `c` calories, in list order. */
  function WithCalories(s: seq<Entry>, c: int): seq<Entry> {
    if s == [] then []
    else
      var n := |s| - 1;
      WithCalories(s[..n], c) + (if s[n].totalCalories == c then [s[n]] else [])
  }

  /** `t` holds the entries of `s`, and entries with equal calories appear in `t` in the
      same order as in `s`: what a stable sort guarantees. */
  ghost predicate StablyRearranged(s: seq<Entry>, t: seq<Entry>) {
    multiset(s) == multiset(t) && forall c :: WithCalories(s, c) == WithCalories(t, c)
  }

  /** `s` with the entries at `j - 1` and `j` exchanged. */
  function Swapped(s: seq<Entry>, j: nat): (r: seq<Entry>)
    requires 0 < j < |s|
    ensures |r| == |s| && r[j - 1] == s[j] && r[j] == s[j - 1]
    ensures forall k :: 0 <= k < |s| && k != j - 1 && k != j ==> r[k] == s[k]
  {
    s[j - 1 := s[j]][j := s[j - 1]]
  }

  lemma {:induction false} WithCaloriesConcat(xs: seq<Entry>, ys: seq<Entry>, c: int)
    ensures WithCalories(xs + ys, c) == WithCalories(xs, c) + WithCalories(ys, c)
    decreases |ys|
  {
    if ys == [] {
      assert xs + ys == xs;
    } else {
      var n := |ys| - 1;
      assert (xs + ys)[..|xs + ys| - 1] == xs + ys[..n];
      assert (xs + ys)[|xs + ys| - 1] == ys[n];
      WithCaloriesConcat(xs, ys[..n], c);
    }
  }

  lemma WithCaloriesConcat3(pre: seq<Entry>, mid: seq<Entry>, post: seq<Entry>, c: int)
    ensures WithCalories(pre + mid + post, c) == WithCalories(pre, c) + WithCalories(mid, c) + WithCalories(post, c)
  {
    WithCaloriesConcat(pre + mid, post, c);
    WithCaloriesConcat(pre, mid, c);
  }

  lemma WithCaloriesPair(x: Entry, y: Entry, c: int)
    requires x.totalCalories != y.totalCalories
    ensures WithCalories([x, y], c) == WithCalories([y, x], c)
  {
    assert [x, y][..1] == [x] && [y, x][..1] == [y];
  }

  /** Exchanging neighbours with different calories keeps the list stably rearranged. */
  lemma SwapKeepsStable(s: seq<Entry>, j: nat)
    requires 0 < j < |s| && s[j - 1].totalCalories != s[j].totalCalories
    ensures StablyRearranged(s, Swapped(s, j))
  {
    var pre, x, y, post := s[..j - 1], s[j - 1], s[j], s[j + 1..];
    assert s == pre + [x, y] + post;
    assert Swapped(s, j) == pre + [y, x] + post;
    forall c
      ensures WithCalories(s, c) == WithCalories(Swapped(s, j), c)
    {
      WithCaloriesConcat3(pre, [x, y], post, c);
      WithCaloriesConcat3(pre, [y, x], post, c);
      WithCaloriesPair(x, y, c);
    }
  }

  lemma StablyRearrangedTrans(r: seq<Entry>, s: seq<Entry>, t: seq<Entry>)
    requires StablyRearranged(r, s) && StablyRearranged(s, t)
    ensures StablyRearranged(r, t)
  {
    forall c
      ensures WithCalories(r, c) == WithCalories(t, c)
    {
      assert WithCalories(r, c) == WithCalories(s, c);
    }
  }

  /** The first `i` entries are sorted. */
  predicate SortedPrefix(s: seq<Entry>, i: nat)
    requires i <= |s|
  {
    forall k, l :: 0 <= k < l < i ==> s[k].totalCalories >= s[l].totalCalories
  }

  /** While entry `j` moves left: `s[..i + 1]` without position `j` is sorted, and
      entry `j` has more calories than every entry after it up to `i`. */
  predicate Inserting(s: seq<Entry>, i: nat, j: nat)
    requires j <= i < |s|
  {
    (forall k, l :: 0 <= k < l <= i && k != j && l != j ==> s[k].totalCalories >= s[l].totalCalories) &&
    (forall l :: j < l <= i ==> s[j].totalCalories > s[l].totalCalories)
  }

  lemma InsertStart(s: seq<Entry>, i: nat)
    requires i < |s| && SortedPrefix(s, i)
    ensures Inserting(s, i, i)
  {
  }

  lemma InsertStep(s: seq<Entry>, i: nat, j: nat)
    requires 0 < j <= i < |s| && Inserting(s, i, j) && s[j - 1].totalCalories < s[j].totalCalories
    ensures Inserting(Swapped(s, j), i, j - 1)
  {
  }

  lemma InsertEnd(s: seq<Entry>, i: nat, j: nat)
    requires j <= i < |s| && Inserting(s, i, j) && (j == 0 || s[j - 1].totalCalories >= s[j].totalCalories)
    ensures SortedPrefix(s, i + 1)
  {
  }

  /** One step of the insertion: the entry at `j` passes its left neighbour, which has
      fewer calories. */
  method SwapWithLeft(a: array<Entry>, j: nat)
    requires 0 < j < a.Length && a[j - 1].totalCalories < a[j].totalCalories
    modifies a
    ensures a[..] == Swapped(old(a[..]), j)
    ensures StablyRearranged(old(a[..]), a[..])
  {
    SwapKeepsStable(a[..], j);
    a[j - 1], a[j] := a[j], a[j - 1];
  }

  /** `leaderboard_data.sort(key=lambda x: x["total_calories"], reverse=True)`, as an
      insertion sort that moves an entry left only past entries with fewer calories. */
  method SortByCaloriesDesc(a: array<Entry>)
    modifies a
    ensures SortedByCaloriesDesc(a[..])
    ensures StablyRearranged(old(a[..]), a[..])
  {
    var i := 0;
    while i < a.Length
      invariant 0 <= i <= a.Length
      invariant SortedPrefix(a[..], i)
      invariant StablyRearranged(old(a[..]), a[..])
    {
      InsertStart(a[..], i);
      var j := i;
      while j > 0 && a[j - 1].totalCalories < a[j].totalCalories
        invariant 0 <= j <= i
        invariant Inserting(a[..], i, j)
        invariant StablyRearranged(old(a[..]), a[..])
      {
        InsertStep(a[..], i, j);
        ghost var before := a[..];
        SwapWithLeft(a, j);
        StablyRearrangedTrans(old(a[..]), before, a[..]);
        j := j - 1;
      }
      InsertEnd(a[..], i, j);
      i := i + 1;
    }
  }

  /** `for idx, entry in enumerate(leaderboard_data, 1): entry["rank"] = idx`. */
  method AssignRanks(a: array<Entry>)
    modifies a
    ensures forall i :: 0 <= i < a.Length ==> a[i] == old(a[i]).(rank := i + 1)
  {
    for i := 0 to a.Length
      invariant forall k :: 0 <= k < i ==> a[k] == old(a[k]).(rank := k + 1)
      invariant forall k :: i <= k < a.Length ==> a[k] == old(a[k])
    {
      a[i] := a[i].(rank := i + 1);
    }
  }

  /** Taking out entry `k` takes its count out of the sum. */
  lemma {:induction false} SumActivitiesRemove(t: seq<Entry>, k: nat)
    requires k < |t|
    ensures SumActivities(t) == SumActivities(t[..k] + t[k + 1..]) + t[k].totalActivities
  {
    var n := |t| - 1;
    var r := t[..k] + t[k + 1..];
    if k == n {
      assert r == t[..n];
    } else {
      assert r[..|r| - 1] == t[..n][..k] + t[..n][k + 1..];
      assert r[|r| - 1] == t[n];
      SumActivitiesRemove(t[..n], k);
    }
  }

  /** The sum of `total_activities` does not depend on the order of the entries. */
  lemma {:induction false} SumActivitiesRearranged(s: seq<Entry>, t: seq<Entry>)
    requires multiset(s) == multiset(t)
    ensures SumActivities(s) == SumActivities(t)
    decreases |s|
  {
    if s != [] {
      var n := |s| - 1;
      var x := s[n];
      assert s == s[..n] + [x];
      assert x in multiset(t);
      var k :| 0 <= k < |t| && t[k] == x;
      var rest := t[..k] + t[k + 1..];
      assert t == t[..k] + [x] + t[k + 1..];
      assert multiset(t) == multiset(t[..k]) + multiset{x} + multiset(t[k + 1..]);
      assert multiset(rest) == multiset(t[..k]) + multiset(t[k + 1..]);
      assert multiset(s) == multiset(s[..n]) + multiset{x};
      assert multiset(rest) == multiset(t) - multiset{x};
      assert multiset(s[..n]) == multiset(s) - multiset{x};
      SumActivitiesRearranged(s[..n], rest);
      SumActivitiesRemove(t, k);
    }
  }

  lemma {:induction false} SumActivitiesConcat(xs: seq<Entry>, ys: seq<Entry>)
    ensures SumActivities(xs + ys) == SumActivities(xs) + SumActivities(ys)
    decreases |ys|
  {
    if ys == [] {
      assert xs + ys == xs;
    } else {
      var n := |ys| - 1;
      assert (xs + ys)[..|xs + ys| - 1] == xs + ys[..n];
      assert (xs + ys)[|xs + ys| - 1] == ys[n];
      SumActivitiesConcat(xs, ys[..n]);
    }
  }

  /** The sum of `total_activities` ignores every other field. */
  lemma {:induction false} SumActivitiesPointwise(s: seq<Entry>, t: seq<Entry>)
    requires |s| == |t| && forall i :: 0 <= i < |s| ==> s[i].totalActivities == t[i].totalActivities
    ensures SumActivities(s) == SumActivities(t)
  {
    if s != [] {
      var n := |s| - 1;
      SumActivitiesPointwise(s[..n], t[..n]);
    }
  }
}
