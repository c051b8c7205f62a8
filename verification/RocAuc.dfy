/** Rank AUC with average ranks for ties (research/challengers/common.py). */
module RocAuc {
  import opened Prelude
  import opened Sorting

  datatype AucError = NotAligned | BadLabel | BadProbability

  datatype Item = Item(index: nat, outcome: int, p: real)

  /** How a pair is ranked: 1 for right, one half for a tie, 0 for wrong. */
  function Credit(x: real, y: real): real { if y < x then 1.0 else if y == x then 0.5 else 0.0 }

  /** Credit of one score against many. */
  function Score(x: real, items: seq<Item>): real {
    if items == [] then 0.0 else Credit(x, items[0].p) + Score(x, items[1..])
  }

  /** Total credit of all pairs: correctly ranked pairs plus half the ties. */
  function PairScore(xs: seq<Item>, ys: seq<Item>): real {
    if xs == [] then 0.0 else Score(xs[0].p, ys) + PairScore(xs[1..], ys)
  }

  function OfLabel(items: seq<Item>, outcome: int): seq<Item> {
    if items == [] then [] else (if items[0].outcome == outcome then [items[0]] else []) + OfLabel(items[1..], outcome)
  }

  function ItemsFrom(labels: seq<int>, probabilities: seq<real>, from: nat): (r: seq<Item>)
    requires |labels| == |probabilities| && from <= |labels|
    ensures |r| == |labels| - from && forall i :: 0 <= i < |r| ==> r[i] == Item(from + i, labels[from + i], probabilities[from + i])
    decreases |labels| - from
  {
    if from == |labels| then [] else [Item(from, labels[from], probabilities[from])] + ItemsFrom(labels, probabilities, from + 1)
  }

  lemma {:induction false} ScoreSplits(x: real, a: seq<Item>, b: seq<Item>)
    ensures Score(x, a + b) == Score(x, a) + Score(x, b)
  {
    if a == [] {
      assert a + b == b;
    } else {
      assert (a + b)[1..] == a[1..] + b;
      ScoreSplits(x, a[1..], b);
    }
  }

  lemma ScoreWithout(x: real, b: seq<Item>, j: nat)
    requires j < |b|
    ensures Score(x, b) == Credit(x, b[j].p) + Score(x, b[..j] + b[j + 1..])
  {
    var tail := [b[j]] + b[j + 1..];
    assert b == b[..j] + tail && tail[1..] == b[j + 1..];
    ScoreSplits(x, b[..j], tail);
    ScoreSplits(x, b[..j], b[j + 1..]);
  }

  lemma MultisetWithout(a: seq<Item>, b: seq<Item>, j: nat)
    requires a != [] && j < |b| && b[j] == a[0] && multiset(a) == multiset(b)
    ensures multiset(a[1..]) == multiset(b[..j] + b[j + 1..])
  {
    assert a == [a[0]] + a[1..];
    assert b == b[..j] + ([b[j]] + b[j + 1..]);
    var front, back := b[..j], b[j + 1..];
    assert multiset(a) == multiset{a[0]} + multiset(a[1..]);
    assert multiset(b) == multiset(front) + (multiset{b[j]} + multiset(back));
    assert multiset(front + back) == multiset(front) + multiset(back);
    assert multiset(a[1..]) == multiset(a) - multiset{a[0]};
    assert multiset(front + back) == multiset(b) - multiset{b[j]};
  }

  /** A score does not depend on the order of what it is compared with. */
  lemma {:induction false} ScorePermutes(x: real, a: seq<Item>, b: seq<Item>)
    requires multiset(a) == multiset(b)
    ensures Score(x, a) == Score(x, b)
  {
    hide Credit;
    if a == [] {
      assert |multiset(b)| == 0;
    } else {
      assert a[0] in multiset(b);
      var j :| 0 <= j < |b| && b[j] == a[0];
      MultisetWithout(a, b, j);
      ScorePermutes(x, a[1..], b[..j] + b[j + 1..]);
      ScoreWithout(x, b, j);
    }
  }

  lemma {:induction false} ScoreByLabel(x: real, items: seq<Item>)
    requires forall i <- items :: i.outcome == 0 || i.outcome == 1
    ensures Score(x, items) == Score(x, OfLabel(items, 1)) + Score(x, OfLabel(items, 0))
    ensures |OfLabel(items, 1)| + |OfLabel(items, 0)| == |items|
  {
    if items != [] {
      assert items[0] in items && forall i <- items[1..] :: i in items;
      ScoreByLabel(x, items[1..]);
      ScoreSplits(x, if items[0].outcome == 1 then [items[0]] else [], OfLabel(items[1..], 1));
      ScoreSplits(x, if items[0].outcome == 0 then [items[0]] else [], OfLabel(items[1..], 0));
      assert [items[0]][1..] == [];
    }
  }

  lemma {:induction false} PairScoreColumn(xs: seq<Item>, y: Item, ys: seq<Item>)
    ensures PairScore(xs, [y] + ys) == Score2(xs, y.p) + PairScore(xs, ys)
  {
    if xs != [] {
      PairScoreColumn(xs[1..], y, ys);
      assert ([y] + ys)[1..] == ys;
    }
  }

  /** Credit of many scores against one. */
  function Score2(xs: seq<Item>, y: real): real {
    if xs == [] then 0.0 else Credit(xs[0].p, y) + Score2(xs[1..], y)
  }

  lemma {:induction false} ColumnsComplement(xs: seq<Item>, y: real)
    ensures Score2(xs, y) + Score(y, xs) == |xs| as real
  {
    if xs != [] { ColumnsComplement(xs[1..], y); }
  }

  /** Ranking the other way round gives the complementary credit. */
  lemma {:induction false} PairsComplement(xs: seq<Item>, ys: seq<Item>)
    ensures PairScore(xs, ys) + PairScore(ys, xs) == |xs| as real * |ys| as real
  {
    if ys == [] {
      NoColumns(xs);
    } else {
      assert ys == [ys[0]] + ys[1..];
      PairScoreColumn(xs, ys[0], ys[1..]);
      ColumnsComplement(xs, ys[0].p);
      PairsComplement(xs, ys[1..]);
      assert |xs| as real * |ys| as real == |xs| as real + |xs| as real * |ys[1..]| as real;
    }
  }

  lemma {:induction false} NoColumns(xs: seq<Item>)
    ensures PairScore(xs, []) == 0.0
  {
    if xs != [] { NoColumns(xs[1..]); }
  }

  /** The average rank of a score: one more than the scores below it, averaged over its ties. */
  function Rank(x: real, items: seq<Item>): real { Score(x, items) + 0.5 }

  function RankSum(some: seq<Item>, items: seq<Item>): real {
    if some == [] then 0.0 else (if some[0].outcome == 1 then Rank(some[0].p, items) else 0.0) + RankSum(some[1..], items)
  }

  lemma {:induction false} RankSumIsPairScore(some: seq<Item>, items: seq<Item>)
    requires forall i <- items :: i.outcome == 0 || i.outcome == 1
    ensures var pos := OfLabel(some, 1);
            RankSum(some, items) == PairScore(pos, OfLabel(items, 1)) + PairScore(pos, OfLabel(items, 0)) + 0.5 * |pos| as real
  {
    if some != [] {
      RankSumIsPairScore(some[1..], items);
      ScoreByLabel(some[0].p, items);
      var rest := OfLabel(some[1..], 1);
      if some[0].outcome == 1 { assert ([some[0]] + rest)[1..] == rest; } else { assert [] + rest == rest; }
    }
  }

  function Triangle(p: real): real { p * (p + 1.0) / 2.0 }

  /** Half the pairs of positives among themselves cancel against the triangular number the formula subtracts. */
  lemma AucIdentity(items: seq<Item>)
    requires forall i <- items :: i.outcome == 0 || i.outcome == 1
    ensures RankSum(items, items) - Triangle(|OfLabel(items, 1)| as real) == PairScore(OfLabel(items, 1), OfLabel(items, 0))
  {
    hide PairScore, OfLabel, RankSum;
    var pos := OfLabel(items, 1);
    RankSumIsPairScore(items, items);
    PairsComplement(pos, pos);
    var p := |pos| as real;
    assert p * (p + 1.0) / 2.0 == 0.5 * (p * p) + 0.5 * p;
  }

  predicate ByScore(a: Item, b: Item) { a.p < b.p || (a.p == b.p && a.index <= b.index) }

  lemma ByScoreIsTotal()
    ensures TotalPreorder(ByScore)
  {
  }

  lemma OneMore(credit: real, n: nat)
    ensures credit * (n + 1) as real == credit + credit * n as real
  {
  }

  lemma {:induction false} ScoreUniform(x: real, items: seq<Item>, credit: real)
    requires forall i :: 0 <= i < |items| ==> Credit(x, items[i].p) == credit
    ensures Score(x, items) == credit * |items| as real
  {
    hide Credit;
    if items != [] {
      assert Credit(x, items[0].p) == credit;
      ScoreUniform(x, items[1..], credit);
      OneMore(credit, |items| - 1);
    }
  }

  lemma TiesAreTogether(ordered: seq<Item>, cursor: nat, end: nat, x: real)
    requires Sorted(ordered, ByScore) && cursor < end <= |ordered|
    requires forall k :: cursor <= k < end ==> ordered[k].p == x
    requires forall k :: 0 <= k < cursor ==> ordered[k].p != x
    requires end < |ordered| ==> ordered[end].p != x
    ensures forall k :: 0 <= k < cursor ==> ordered[k].p < x
    ensures forall k :: end <= k < |ordered| ==> ordered[k].p > x
  {
    forall k | 0 <= k < cursor ensures ordered[k].p < x { assert ByScore(ordered[k], ordered[cursor]); }
    forall k | end <= k < |ordered| ensures ordered[k].p > x {
      assert ByScore(ordered[cursor], ordered[end]);
      if k > end { assert ByScore(ordered[end], ordered[k]); }
    }
  }

  /** In sorted order a tie group from `cursor` to `end` has the average of its positions as rank. */
  lemma GroupRank(ordered: seq<Item>, cursor: nat, end: nat, x: real)
    requires Sorted(ordered, ByScore) && cursor < end <= |ordered|
    requires forall k :: cursor <= k < end ==> ordered[k].p == x
    requires forall k :: 0 <= k < cursor ==> ordered[k].p != x
    requires end < |ordered| ==> ordered[end].p != x
    ensures Rank(x, ordered) == ((cursor + 1) as real + end as real) / 2.0
  {
    hide Sorted, Score;
    var low, tie, high := ordered[..cursor], ordered[cursor..end], ordered[end..];
    TiesAreTogether(ordered, cursor, end, x);
    assert ordered == low + (tie + high);
    ScoreSplits(x, low, tie + high);
    ScoreSplits(x, tie, high);
    ScoreUniform(x, low, 1.0);
    ScoreUniform(x, tie, 0.5);
    ScoreUniform(x, high, 0.0);
  }

  // ---- The algorithm ----

  /** One tie group after the other, each with its average rank, written through the original index. */
  method AssignRanks(items: seq<Item>, ordered: seq<Item>) returns (ranks: array<real>)
    requires multiset(ordered) == multiset(items) && |ordered| == |items| && Sorted(ordered, ByScore)
    requires forall i :: 0 <= i < |items| ==> items[i].index == i
    ensures fresh(ranks) && ranks.Length == |items|
    ensures forall i :: 0 <= i < |items| ==> ranks[i] == Rank(items[i].p, items)
  {
    hide Rank, Sorted;
    OrderedIndexes(items, ordered);
    ranks := new real[|items|](_ => 0.0);
    var cursor := 0;
    while cursor < |ordered|
      invariant cursor <= |ordered|
      invariant forall k :: 0 <= k < cursor ==> ranks[ordered[k].index] == Rank(ordered[k].p, items)
      invariant 0 < cursor < |ordered| ==> forall k :: 0 <= k < cursor ==> ordered[k].p != ordered[cursor].p
    {
      var end, x := cursor + 1, ordered[cursor].p;
      while end < |ordered| && ordered[end].p == x
        invariant cursor < end <= |ordered| && forall k :: cursor <= k < end ==> ordered[k].p == x
      {
        end := end + 1;
      }
      var average := ((cursor + 1) as real + end as real) / 2.0;
      GroupRank(ordered, cursor, end, x);
      RankPermutes(x, ordered, items);
      var i := cursor;
      while i < end
        invariant cursor <= i <= end
        invariant forall k :: 0 <= k < i ==> ranks[ordered[k].index] == Rank(ordered[k].p, items)
      {
        ranks[ordered[i].index] := average;
        i := i + 1;
      }
      GroupsDiffer(ordered, cursor, end, x);
      cursor := end;
    }
    RanksComplete(items, ordered, ranks[..]);
  }

  lemma OrderedIndexes(items: seq<Item>, ordered: seq<Item>)
    requires multiset(ordered) == multiset(items) && |ordered| == |items| && forall i :: 0 <= i < |items| ==> items[i].index == i
    ensures forall k :: 0 <= k < |ordered| ==> ordered[k].index < |items| && items[ordered[k].index] == ordered[k]
    ensures forall j, k :: 0 <= j < k < |ordered| ==> ordered[j].index != ordered[k].index
    ensures forall i :: 0 <= i < |items| ==> items[i] in ordered
  {
    SameMultisetSameMembers(ordered, items);
    forall k | 0 <= k < |ordered| ensures ordered[k].index < |items| && items[ordered[k].index] == ordered[k] {
      assert ordered[k] in items;
    }
    assert NoRepeats(items);
    PermutationNoRepeats(items, ordered);
    forall j, k | 0 <= j < k < |ordered| ensures ordered[j].index != ordered[k].index { assert ordered[j] != ordered[k]; }
  }

  lemma RankPermutes(x: real, a: seq<Item>, b: seq<Item>)
    requires multiset(a) == multiset(b)
    ensures Rank(x, a) == Rank(x, b)
  {
    ScorePermutes(x, a, b);
  }

  lemma GroupsDiffer(ordered: seq<Item>, cursor: nat, end: nat, x: real)
    requires Sorted(ordered, ByScore) && cursor < end <= |ordered|
    requires forall k :: cursor <= k < end ==> ordered[k].p == x
    requires end < |ordered| ==> ordered[end].p != x
    ensures end < |ordered| ==> forall k :: 0 <= k < end ==> ordered[k].p != ordered[end].p
  {
    if end < |ordered| {
      assert ByScore(ordered[cursor], ordered[end]);
      forall k | 0 <= k < end ensures ordered[k].p != ordered[end].p {
        if k < cursor { assert ByScore(ordered[k], ordered[cursor]); }
      }
    }
  }

  lemma RanksComplete(items: seq<Item>, ordered: seq<Item>, ranks: seq<real>)
    requires |ranks| == |items| && forall i :: 0 <= i < |items| ==> items[i].index == i
    requires forall i :: 0 <= i < |items| ==> items[i] in ordered
    requires forall k :: 0 <= k < |ordered| ==> ordered[k].index < |items| && ranks[ordered[k].index] == Rank(ordered[k].p, items)
    ensures forall i :: 0 <= i < |items| ==> ranks[i] == Rank(items[i].p, items)
  {
    hide Rank;
    forall i | 0 <= i < |items| ensures ranks[i] == Rank(items[i].p, items) {
      var k :| 0 <= k < |ordered| && ordered[k] == items[i];
    }
  }

  function PositiveRankSum(items: seq<Item>, ranks: seq<real>): real
    requires |ranks| == |items|
  {
    if items == [] then 0.0 else (if items[0].outcome == 1 then ranks[0] else 0.0) + PositiveRankSum(items[1..], ranks[1..])
  }

  lemma {:induction false} RanksAreSummed(some: seq<Item>, ranks: seq<real>, items: seq<Item>)
    requires |ranks| == |some| && forall i :: 0 <= i < |some| ==> ranks[i] == Rank(some[i].p, items)
    ensures PositiveRankSum(some, ranks) == RankSum(some, items)
  {
    hide Rank;
    if some != [] { RanksAreSummed(some[1..], ranks[1..], items); }
  }

  /** No statistic with one class only; otherwise, times positives times negatives, correctly ranked pairs plus half the
      tied ones. */
  ghost predicate AucMeans(items: seq<Item>, auc: Option<real>) {
    var pos, neg := OfLabel(items, 1), OfLabel(items, 0);
    if pos == [] || neg == [] then auc.None?
    else auc.Some? && auc.value * (|pos| as real * |neg| as real) == PairScore(pos, neg) && 0.0 <= auc.value <= 1.0
  }

  lemma OneClassOnly(items: seq<Item>)
    ensures OfLabel(items, 1) == [] || OfLabel(items, 0) == [] ==> AucMeans(items, None)
  {
  }

  /** The statistic of labelled scores that have both classes. */
  method AucOf(items: seq<Item>) returns (auc: real)
    requires forall i :: 0 <= i < |items| ==> items[i].index == i
    requires forall i <- items :: i.outcome == 0 || i.outcome == 1
    requires OfLabel(items, 1) != [] && OfLabel(items, 0) != []
    ensures AucMeans(items, Some(auc))
  {
    hide PairScore, OfLabel, Rank, RankSum, PositiveRankSum, ByScore, Sorted, Triangle;
    var positives := |OfLabel(items, 1)|;
    LabelsPartition(items);
    var negatives := |items| - positives;
    var ordered := Sort(items, ByScore);
    ByScoreIsTotal();
    SortSorted(items, ByScore);
    var ranks := AssignRanks(items, ordered);
    var sum := PositiveRankSum(items, ranks[..]);
    RanksAreSummed(items, ranks[..], items);
    AucIdentity(items);
    var above := sum - Triangle(positives as real);
    auc := above / (positives as real * negatives as real);
    AucInRange(OfLabel(items, 1), OfLabel(items, 0), above, positives, negatives, auc);
  }

  /** `roc_auc`: times positives times negatives it is the number of correctly ranked pairs plus half the tied ones. */
  method RocAuc(labels: seq<int>, probabilities: seq<real>) returns (r: Result<Option<real>, AucError>)
    ensures r.Err? <==>
              || |labels| != |probabilities| || labels == []
              || (exists y <- labels :: y !in {0, 1}) || exists p <- probabilities :: p < 0.0 || 1.0 < p
    ensures r.Ok? ==> AucMeans(ItemsFrom(labels, probabilities, 0), r.value)
  {
    hide AucMeans, OfLabel;
    if |labels| != |probabilities| || labels == [] { return Err(NotAligned); }
    if exists y <- labels :: y != 0 && y != 1 { return Err(BadLabel); }
    if exists p <- probabilities :: !(0.0 <= p <= 1.0) { return Err(BadProbability); }
    var items := ItemsFrom(labels, probabilities, 0);
    OutcomesAreLabels(labels, items);
    LabelsPartition(items);
    var positives := |OfLabel(items, 1)|;
    var negatives := |items| - positives;
    if positives == 0 || negatives == 0 {
      OneClassOnly(items);
      return Ok(None);
    }
    var auc := AucOf(items);
    return Ok(Some(auc));
  }

  lemma OutcomesAreLabels(labels: seq<int>, items: seq<Item>)
    requires |items| == |labels| && forall i :: 0 <= i < |items| ==> items[i].outcome == labels[i]
    requires forall y <- labels :: y == 0 || y == 1
    ensures forall i <- items :: i.outcome == 0 || i.outcome == 1
  {
    forall i | i in items ensures i.outcome == 0 || i.outcome == 1 {
      var k :| 0 <= k < |items| && items[k] == i;
      assert labels[k] in labels;
    }
  }

  lemma LabelsPartition(items: seq<Item>)
    requires forall i <- items :: i.outcome == 0 || i.outcome == 1
    ensures |OfLabel(items, 1)| + |OfLabel(items, 0)| == |items|
  {
    ScoreByLabel(0.0, items);
  }

  lemma {:induction false} ScoreBounds(x: real, items: seq<Item>)
    ensures 0.0 <= Score(x, items) <= |items| as real
  {
    if items != [] { ScoreBounds(x, items[1..]); }
  }

  lemma {:induction false} PairScoreBounds(xs: seq<Item>, ys: seq<Item>)
    ensures 0.0 <= PairScore(xs, ys)
  {
    if xs != [] {
      ScoreBounds(xs[0].p, ys);
      PairScoreBounds(xs[1..], ys);
    }
  }

  lemma AucInRange(pos: seq<Item>, neg: seq<Item>, above: real, p: nat, n: nat, auc: real)
    requires pos != [] && neg != [] && p == |pos| && n == |neg|
    requires above == PairScore(pos, neg) && auc == above / (p as real * n as real)
    ensures auc * (|pos| as real * |neg| as real) == PairScore(pos, neg) && 0.0 <= auc <= 1.0
  {
    hide PairScore;
    PairScoreBounds(pos, neg);
    PairScoreBounds(neg, pos);
    PairsComplement(pos, neg);
    Ratio(PairScore(pos, neg), |pos| as real * |neg| as real);
  }

  lemma Ratio(a: real, b: real)
    requires 0.0 <= a <= b && b > 0.0
    ensures (a / b) * b == a && 0.0 <= a / b <= 1.0
  {
  }
}
