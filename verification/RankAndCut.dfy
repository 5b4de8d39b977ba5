/** The shared cut of the search tools: the best-scoring items, best first, ties
    in catalog order. Items are given by their index. */
module RankAndCut {
  import opened Common

  /** Stable insertion: after everything that scores at least as much. */
  function Insert(ranked: seq<nat>, scores: seq<real>, i: nat): seq<nat>
    requires i < |scores| && AllBelow(ranked, |scores|)
  {
    if ranked == [] then [i]
    else if scores[ranked[0]] >= scores[i] then [ranked[0]] + Insert(ranked[1..], scores, i)
    else [i] + ranked
  }

  predicate AllBelow(ranked: seq<nat>, n: nat) {
    forall k :: 0 <= k < |ranked| ==> ranked[k] < n
  }

  /** The first `n` items that score at all, score descending and stable. */
  function Ranked(scores: seq<real>, n: nat): (ranked: seq<nat>)
    requires n <= |scores|
    ensures AllBelow(ranked, n)
  {
    if n == 0 then []
    else
      var earlier := Ranked(scores, n - 1);
      if scores[n - 1] > 0.0 then
        InsertAddsOne(earlier, scores, n - 1);
        Insert(earlier, scores, n - 1)
      else earlier
  }

  function Share(score: real, ratio: real): real {
    score * ratio
  }

  /** Nothing, or the ratio of the best score. */
  function Floor(ranked: seq<nat>, scores: seq<real>, minRatio: Option<real>): real
    requires AllBelow(ranked, |scores|)
  {
    if minRatio.None? || ranked == [] then 0.0 else Share(scores[ranked[0]], minRatio.value)
  }

  function AtLeast(ranked: seq<nat>, scores: seq<real>, floor: real): seq<nat>
    requires AllBelow(ranked, |scores|)
  {
    if ranked == [] then []
    else (if scores[ranked[0]] >= floor then [ranked[0]] else []) + AtLeast(ranked[1..], scores, floor)
  }

  function RankAndCut(scores: seq<real>, limit: nat, minRatio: Option<real>): seq<nat> {
    var ranked := Ranked(scores, |scores|);
    var kept := AtLeast(ranked, scores, Floor(ranked, scores, minRatio));
    if |kept| <= limit then kept else kept[..limit]
  }

  // ------------------------------------------------------------ the ranking

  /** `i` is shown before `j`: a higher score, or the same and earlier. */
  predicate Before(scores: seq<real>, i: nat, j: nat)
    requires i < |scores| && j < |scores|
  {
    scores[i] > scores[j] || (scores[i] == scores[j] && i < j)
  }

  predicate InOrder(scores: seq<real>, ranked: seq<nat>)
    requires AllBelow(ranked, |scores|)
  {
    forall a, b :: 0 <= a < b < |ranked| ==> Before(scores, ranked[a], ranked[b])
  }

  lemma {:induction false} InsertAddsOne(ranked: seq<nat>, scores: seq<real>, i: nat)
    requires i < |scores| && AllBelow(ranked, |scores|)
    ensures forall x :: x in Insert(ranked, scores, i) <==> x in ranked || x == i
    ensures AllBelow(ranked, i) ==> AllBelow(Insert(ranked, scores, i), i + 1)
  {
    if ranked != [] && scores[ranked[0]] >= scores[i] {
      InsertAddsOne(ranked[1..], scores, i);
      assert ranked == [ranked[0]] + ranked[1..];
    }
  }

  lemma {:induction false} InsertKeepsOrder(ranked: seq<nat>, scores: seq<real>, i: nat)
    requires i < |scores| && AllBelow(ranked, i) && InOrder(scores, ranked)
    ensures AllBelow(Insert(ranked, scores, i), |scores|) && InOrder(scores, Insert(ranked, scores, i))
  {
    InsertAddsOne(ranked, scores, i);
    if ranked != [] && scores[ranked[0]] >= scores[i] {
      InsertKeepsOrder(ranked[1..], scores, i);
      InsertAddsOne(ranked[1..], scores, i);
      var tail := Insert(ranked[1..], scores, i);
      forall b | 0 <= b < |tail|
        ensures Before(scores, ranked[0], tail[b])
      {
        assert tail[b] in tail;
        if tail[b] != i {
          var k :| 0 <= k < |ranked[1..]| && ranked[1..][k] == tail[b];
          assert ranked[k + 1] == tail[b];
        }
      }
    }
  }

  lemma {:induction false} RankedIsInOrder(scores: seq<real>, n: nat)
    requires n <= |scores|
    ensures InOrder(scores, Ranked(scores, n))
  {
    if n > 0 {
      var earlier := Ranked(scores, n - 1);
      RankedIsInOrder(scores, n - 1);
      if scores[n - 1] > 0.0 {
        InsertKeepsOrder(earlier, scores, n - 1);
        assert Ranked(scores, n) == Insert(earlier, scores, n - 1);
      } else {
        assert Ranked(scores, n) == earlier;
      }
    }
  }

  lemma {:induction false} RankedAreThePositive(scores: seq<real>, n: nat)
    requires n <= |scores|
    ensures forall i: nat :: i in Ranked(scores, n) <==> i < n && scores[i] > 0.0
  {
    if n > 0 {
      var earlier := Ranked(scores, n - 1);
      RankedAreThePositive(scores, n - 1);
      if scores[n - 1] > 0.0 {
        InsertAddsOne(earlier, scores, n - 1);
        assert Ranked(scores, n) == Insert(earlier, scores, n - 1);
      } else {
        assert Ranked(scores, n) == earlier;
      }
    }
  }

  // ---------------------------------------------------------------- the cut

  lemma {:induction false} AtLeastSelects(ranked: seq<nat>, scores: seq<real>, floor: real)
    requires AllBelow(ranked, |scores|)
    ensures AllBelow(AtLeast(ranked, scores, floor), |scores|)
    ensures forall i: nat :: i in AtLeast(ranked, scores, floor) <==> i in ranked && scores[i] >= floor
    ensures InOrder(scores, ranked) ==> InOrder(scores, AtLeast(ranked, scores, floor))
  {
    if ranked != [] {
      AtLeastSelects(ranked[1..], scores, floor);
      assert ranked == [ranked[0]] + ranked[1..];
      var tail := AtLeast(ranked[1..], scores, floor);
      if InOrder(scores, ranked) && scores[ranked[0]] >= floor {
        forall b | 0 <= b < |tail|
          ensures Before(scores, ranked[0], tail[b])
        {
          assert tail[b] in tail;
          var k :| 0 <= k < |ranked[1..]| && ranked[1..][k] == tail[b];
          assert ranked[k + 1] == tail[b];
        }
      }
    }
  }

  /** The ratio floor, by its meaning: that share of the best positive score. */
  predicate IsFloor(scores: seq<real>, minRatio: Option<real>, floor: real) {
    if minRatio.None? || (forall i :: 0 <= i < |scores| ==> scores[i] <= 0.0) then floor == 0.0
    else forall top :: 0 <= top < |scores| && IsBest(scores, top) ==> floor == Share(scores[top], minRatio.value)
  }

  predicate IsBest(scores: seq<real>, top: nat)
    requires top < |scores|
  {
    forall i :: 0 <= i < |scores| ==> scores[i] <= scores[top]
  }

  predicate Eligible(scores: seq<real>, floor: real, i: nat) {
    i < |scores| && scores[i] > 0.0 && scores[i] >= floor
  }

  lemma FirstIsBest(scores: seq<real>)
    ensures Ranked(scores, |scores|) == [] <==> forall i :: 0 <= i < |scores| ==> scores[i] <= 0.0
    ensures Ranked(scores, |scores|) != [] ==> IsBest(scores, Ranked(scores, |scores|)[0])
  {
    var ranked := Ranked(scores, |scores|);
    RankedIsInOrder(scores, |scores|);
    RankedAreThePositive(scores, |scores|);
    if ranked != [] {
      assert ranked[0] in ranked;
      forall i | 0 <= i < |scores|
        ensures scores[i] <= scores[ranked[0]]
      {
        if scores[i] > 0.0 {
          assert i in ranked;
          var k :| 0 <= k < |ranked| && ranked[k] == i;
          assert k > 0 ==> Before(scores, ranked[0], ranked[k]);
        }
      }
    }
  }

  lemma FloorIsTheShareOfTheBest(scores: seq<real>, minRatio: Option<real>)
    ensures IsFloor(scores, minRatio, Floor(Ranked(scores, |scores|), scores, minRatio))
  {
    FirstIsBest(scores);
    var ranked := Ranked(scores, |scores|);
    if ranked != [] && minRatio.Some? {
      BestScoresAgree(scores, ranked[0], minRatio.value);
    }
  }

  lemma BestScoresAgree(scores: seq<real>, best: nat, ratio: real)
    requires best < |scores| && IsBest(scores, best)
    ensures forall top :: 0 <= top < |scores| && IsBest(scores, top) ==> Share(scores[best], ratio) == Share(scores[top], ratio)
  {
    forall top | 0 <= top < |scores| && IsBest(scores, top)
      ensures scores[best] == scores[top]
    {
    }
  }

  /** The cut shows items in order, shows only items that score and reach the
      floor, at most `limit` of them, and hides one of those only when `limit`
      better ones are shown. */
  predicate IsTopCut(scores: seq<real>, limit: nat, floor: real, shown: seq<nat>) {
    && AllBelow(shown, |scores|)
    && InOrder(scores, shown)
    && |shown| <= limit
    && (forall k :: 0 <= k < |shown| ==> Eligible(scores, floor, shown[k]))
    && (forall i :: 0 <= i < |scores| && Eligible(scores, floor, i) && i !in shown ==>
          |shown| == limit && forall k :: 0 <= k < |shown| ==> Before(scores, shown[k], i))
  }

  lemma CutKeepsTheBest(scores: seq<real>, limit: nat, floor: real, kept: seq<nat>, shown: seq<nat>)
    requires AllBelow(kept, |scores|) && InOrder(scores, kept)
    requires forall i: nat :: i in kept <==> Eligible(scores, floor, i)
    requires shown == if |kept| <= limit then kept else kept[..limit]
    ensures IsTopCut(scores, limit, floor, shown)
  {
    forall k | 0 <= k < |shown|
      ensures Eligible(scores, floor, shown[k])
    {
      assert kept[k] in kept;
    }
    forall i | 0 <= i < |scores| && Eligible(scores, floor, i) && i !in shown
      ensures |shown| == limit && forall k :: 0 <= k < |shown| ==> Before(scores, shown[k], i)
    {
      assert i in kept;
      var k :| 0 <= k < |kept| && kept[k] == i;
    }
  }

  lemma CutIsTopCut(scores: seq<real>, limit: nat, minRatio: Option<real>)
    ensures var floor := Floor(Ranked(scores, |scores|), scores, minRatio);
            IsFloor(scores, minRatio, floor) && IsTopCut(scores, limit, floor, RankAndCut(scores, limit, minRatio))
  {
    FloorIsTheShareOfTheBest(scores, minRatio);
    var ranked := Ranked(scores, |scores|);
    var floor := Floor(ranked, scores, minRatio);
    RankedIsInOrder(scores, |scores|);
    RankedAreThePositive(scores, |scores|);
    AtLeastSelects(ranked, scores, floor);
    CutKeepsTheBest(scores, limit, floor, AtLeast(ranked, scores, floor), RankAndCut(scores, limit, minRatio));
  }

  lemma ShownOnce(scores: seq<real>, shown: seq<nat>, k: nat)
    requires AllBelow(shown, |scores|) && InOrder(scores, shown) && k < |shown|
    ensures shown[k] !in shown[..k]
  {
    forall j | 0 <= j < k
      ensures shown[j] != shown[k]
    {
      assert Before(scores, shown[j], shown[k]);
    }
  }

  /** While there is room, the next item shown is at least as good as any that
      has not been shown yet. */
  lemma NextIsBest(scores: seq<real>, limit: nat, floor: real, shown: seq<nat>, k: nat, i: nat)
    requires IsTopCut(scores, limit, floor, shown) && k <= |shown| && k < limit
    requires Eligible(scores, floor, i) && i !in shown[..k]
    ensures k < |shown| && (shown[k] == i || Before(scores, shown[k], i))
  {
    if i in shown {
      var j :| 0 <= j < |shown| && shown[j] == i;
      assert j > k ==> Before(scores, shown[k], shown[j]);
    }
  }

  lemma {:induction false} CutsAgree(scores: seq<real>, limit: nat, floor: real, first: seq<nat>, second: seq<nat>, k: nat)
    requires IsTopCut(scores, limit, floor, first) && IsTopCut(scores, limit, floor, second)
    requires k <= |first|
    ensures k <= |second| && first[..k] == second[..k]
  {
    if k > 0 {
      CutsAgree(scores, limit, floor, first, second, k - 1);
      ShownOnce(scores, first, k - 1);
      NextIsBest(scores, limit, floor, second, k - 1, first[k - 1]);
      ShownOnce(scores, second, k - 1);
      NextIsBest(scores, limit, floor, first, k - 1, second[k - 1]);
    }
  }

  /** And that is all there is to say: only one list of items is such a cut. */
  lemma TopCutIsUnique(scores: seq<real>, limit: nat, floor: real, first: seq<nat>, second: seq<nat>)
    requires IsTopCut(scores, limit, floor, first) && IsTopCut(scores, limit, floor, second)
    ensures first == second
  {
    CutsAgree(scores, limit, floor, first, second, |first|);
    CutsAgree(scores, limit, floor, second, first, |second|);
  }
}
