/**
 * The two-key comparator `selectBestFood` sorts by, a stable sort under it as
 * the reference for "sort, then take the first element", and the arg-min scan
 * that computes that first element without sorting.
 */
module Ranking {
  import opened Foods

  /** How far an item's price exceeds the slot budget: max(0, price - maxBudget). */
  function Overflow(x: FoodItem, maxBudget: real): (o: real)
    ensures o >= 0.0
    ensures o == 0.0 <==> x.price <= maxBudget
    ensures x.price > maxBudget ==> o == x.price - maxBudget
  {
    if x.price <= maxBudget then 0.0 else x.price - maxBudget
  }

  /** |calories - target|. */
  function Distance(x: FoodItem, target: real): (d: real)
    ensures d >= 0.0
    ensures d == x.calories - target || d == target - x.calories
  {
    if x.calories >= target then x.calories - target else target - x.calories
  }

  /**
   * The comparator returns a negative number exactly when `a` ranks strictly
   * before `b`: smaller overflow, or equal overflow and smaller distance.
   */
  predicate RankLess(a: FoodItem, b: FoodItem, target: real, maxBudget: real): (less: bool)
    ensures Overflow(a, maxBudget) < Overflow(b, maxBudget) ==> less
    ensures less ==> Overflow(a, maxBudget) <= Overflow(b, maxBudget)
    ensures Overflow(a, maxBudget) == Overflow(b, maxBudget) ==> (less <==> Distance(a, target) < Distance(b, target))
  {
    Overflow(a, maxBudget) < Overflow(b, maxBudget)
    || (Overflow(a, maxBudget) == Overflow(b, maxBudget) && Distance(a, target) < Distance(b, target))
  }

  /**
   * The comparator is a strict weak order: irreflexive and transitive, with two
   * items tied (the comparator returns 0) exactly when both keys agree.
   */
  lemma RankLessStrictWeakOrder(a: FoodItem, b: FoodItem, c: FoodItem, target: real, maxBudget: real)
    ensures !RankLess(a, a, target, maxBudget)
    ensures RankLess(a, b, target, maxBudget) && RankLess(b, c, target, maxBudget)
            ==> RankLess(a, c, target, maxBudget)
    ensures !RankLess(a, b, target, maxBudget) && !RankLess(b, a, target, maxBudget)
            <==> Overflow(a, maxBudget) == Overflow(b, maxBudget) && Distance(a, target) == Distance(b, target)
  {
  }

  /** An item within budget ranks before any item over budget. */
  lemma WithinBudgetFirst(a: FoodItem, b: FoodItem, target: real, maxBudget: real)
    requires a.price <= maxBudget < b.price
    ensures RankLess(a, b, target, maxBudget)
  {
  }

  /** Among items over budget, the one that exceeds it by less ranks first. */
  lemma LessOverBudgetFirst(a: FoodItem, b: FoodItem, target: real, maxBudget: real)
    requires maxBudget < a.price < b.price
    ensures RankLess(a, b, target, maxBudget)
  {
  }

  /** `s[k]` is what a stable sort puts first: no item ranks before it, every earlier item ranks after it. */
  ghost predicate IsFirstBest(s: seq<FoodItem>, k: int, target: real, maxBudget: real)
  {
    0 <= k < |s|
    && (forall j :: 0 <= j < |s| ==> !RankLess(s[j], s[k], target, maxBudget))
    && (forall j :: 0 <= j < k ==> RankLess(s[k], s[j], target, maxBudget))
  }

  ghost predicate SortedByRank(s: seq<FoodItem>, target: real, maxBudget: real)
  {
    forall i, j :: 0 <= i < j < |s| ==> !RankLess(s[j], s[i], target, maxBudget)
  }

  /** Inserts `x` before the first element that does not rank strictly before it. */
  function Insert(x: FoodItem, s: seq<FoodItem>, target: real, maxBudget: real): (r: seq<FoodItem>)
    ensures |r| == |s| + 1
  {
    if s == [] then [x]
    else if !RankLess(s[0], x, target, maxBudget) then [x] + s
    else [s[0]] + Insert(x, s[1..], target, maxBudget)
  }

  /** Stable insertion sort: equally ranked items keep their catalog order. */
  function SortByRank(s: seq<FoodItem>, target: real, maxBudget: real): (r: seq<FoodItem>)
    ensures |r| == |s|
  {
    if s == [] then [] else Insert(s[0], SortByRank(s[1..], target, maxBudget), target, maxBudget)
  }

  lemma {:induction false} InsertPermutes(x: FoodItem, s: seq<FoodItem>, target: real, maxBudget: real)
    ensures multiset(Insert(x, s, target, maxBudget)) == multiset(s) + multiset{x}
  {
    if s != [] && RankLess(s[0], x, target, maxBudget) {
      InsertPermutes(x, s[1..], target, maxBudget);
      assert s == [s[0]] + s[1..];
    }
  }

  /** The sort is a permutation of its input. */
  lemma {:induction false} SortPermutes(s: seq<FoodItem>, target: real, maxBudget: real)
    ensures multiset(SortByRank(s, target, maxBudget)) == multiset(s)
  {
    if s != [] {
      SortPermutes(s[1..], target, maxBudget);
      InsertPermutes(s[0], SortByRank(s[1..], target, maxBudget), target, maxBudget);
      assert s == [s[0]] + s[1..];
    }
  }

  lemma {:induction false} InsertSorted(x: FoodItem, s: seq<FoodItem>, target: real, maxBudget: real)
    requires SortedByRank(s, target, maxBudget)
    ensures SortedByRank(Insert(x, s, target, maxBudget), target, maxBudget)
  {
    if s != [] && RankLess(s[0], x, target, maxBudget) {
      var rest := Insert(x, s[1..], target, maxBudget);
      InsertSorted(x, s[1..], target, maxBudget);
      InsertPermutes(x, s[1..], target, maxBudget);
      forall j | 0 <= j < |rest|
        ensures !RankLess(rest[j], s[0], target, maxBudget)
      {
        assert rest[j] in multiset(rest);
        assert rest[j] == x || rest[j] in multiset(s[1..]);
        if rest[j] != x {
          var i :| 0 <= i < |s[1..]| && s[1..][i] == rest[j];
          assert s[i + 1] == rest[j];
        }
      }
    }
  }

  /** The sort orders its output by rank. */
  lemma {:induction false} SortSorted(s: seq<FoodItem>, target: real, maxBudget: real)
    ensures SortedByRank(SortByRank(s, target, maxBudget), target, maxBudget)
  {
    if s != [] {
      SortSorted(s[1..], target, maxBudget);
      InsertSorted(s[0], SortByRank(s[1..], target, maxBudget), target, maxBudget);
    }
  }

  /** The first element of the sorted list is the earliest best-ranked item. */
  lemma {:induction false} SortHeadIsFirstBest(s: seq<FoodItem>, k: int, target: real, maxBudget: real)
    requires IsFirstBest(s, k, target, maxBudget)
    ensures |SortByRank(s, target, maxBudget)| == |s|
    ensures SortByRank(s, target, maxBudget)[0] == s[k]
  {
    var rest := s[1..];
    var tail := SortByRank(rest, target, maxBudget);
    assert SortByRank(s, target, maxBudget) == Insert(s[0], tail, target, maxBudget);
    if tail == [] {
    } else if k > 0 {
      assert IsFirstBest(rest, k - 1, target, maxBudget) by {
        forall j | 0 <= j < |rest|
          ensures !RankLess(rest[j], rest[k - 1], target, maxBudget)
        {
          assert rest[j] == s[j + 1];
        }
        forall j | 0 <= j < k - 1
          ensures RankLess(rest[k - 1], rest[j], target, maxBudget)
        {
          assert rest[j] == s[j + 1];
        }
      }
      SortHeadIsFirstBest(rest, k - 1, target, maxBudget);
      assert tail[0] == s[k];
      assert RankLess(tail[0], s[0], target, maxBudget);
    } else {
      SortPermutes(rest, target, maxBudget);
      assert tail[0] in multiset(rest) by { assert tail[0] in multiset(tail); }
      var i :| 0 <= i < |rest| && rest[i] == tail[0];
      assert s[i + 1] == tail[0];
      assert !RankLess(tail[0], s[0], target, maxBudget);
    }
  }

  /** Min-scan: the index of the first item no other item ranks before. */
  method FirstBestIndex(s: seq<FoodItem>, target: real, maxBudget: real) returns (k: nat)
    requires |s| > 0
    ensures k < |s|
    ensures forall j :: 0 <= j < |s| ==> !RankLess(s[j], s[k], target, maxBudget)
    ensures forall j :: 0 <= j < k ==> RankLess(s[k], s[j], target, maxBudget)
  {
    k := 0;
    var i := 1;
    while i < |s|
      invariant 1 <= i <= |s| && k < i
      invariant forall j :: 0 <= j < i ==> !RankLess(s[j], s[k], target, maxBudget)
      invariant forall j :: 0 <= j < k ==> RankLess(s[k], s[j], target, maxBudget)
    {
      if RankLess(s[i], s[k], target, maxBudget) {
        k := i;
      }
      i := i + 1;
    }
  }

  /** Spelled-out examples of the ranking: budget fit decides first, calorie distance second. */
  lemma ExampleRanking(a: FoodItem, b: FoodItem, c: FoodItem, d: FoodItem)
    requires a.price == 50.0 && a.calories == 300.0 && b.price == 200.0 && b.calories == 305.0
    requires c.price == 10.0 && c.calories == 295.0 && d.price == 10.0 && d.calories == 340.0
    ensures SortByRank([b, a], 300.0, 100.0)[0] == a
    ensures SortByRank([d, c], 300.0, 1000.0)[0] == c
  {
  }
}
